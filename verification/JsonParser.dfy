/** The reader as the source runs it: one index over the text, advanced by every production (scripts/chain/json.mjs:9-97). */
module JsonParser {
  import opened Results
  import opened JsonStrings
  import opened Json

  class Parser {
    const text: Text
    var i: nat

    constructor (source: Text)
      ensures text == source && i == 0
    {
      text, i := source, 0;
    }

    ghost predicate Valid()
      reads this
    {
      i <= |text|
    }

    /** What remains to be read. */
    ghost function Rest(): Text
      reads this
      requires Valid()
    {
      text[i..]
    }

    method SkipSpace()
      requires Valid()
      modifies this
      ensures Valid() && Rest() == Skip(old(Rest())) && i >= old(i)
    {
      while i < |text| && IsSpace(text[i])
        invariant old(i) <= i <= |text|
        invariant Skip(Rest()) == Skip(old(Rest()))
      {
        i := i + 1;
      }
    }

    function Char(): Option<Unit>
      reads this
      requires Valid()
      ensures Char() == At(Rest(), 0)
    {
      if i < |text| then Some(text[i]) else None
    }

    /** The scan for the closing quote of the literal whose text starts at `start`; whether it met an escape. */
    method FindQuote(start: nat) returns (end: Result<nat>, escaped: bool)
      requires start <= |text|
      ensures match ClosingQuote(text[start..], 0)
              case Ok(n) => end == Ok(start + n) && start + n < |text| && (escaped <==> BACKSLASH in text[start..start + n])
              case Err(e) => end == Err(e)
    {
      hide ClosingQuote;
      var j := start;
      escaped := false;
      ghost var t := text[start..];
      while true
        invariant start <= j
        invariant Ahead(t, j - start) == ClosingQuote(t, 0)
        invariant j <= |text| ==> (escaped <==> BACKSLASH in text[start..j])
        decreases |text| + 2 - j
      {
        QuoteStep(t, j - start);
        if j >= |text| {
          return Err(JSON_STRING), escaped;
        }
        var c := text[j];
        assert t[j - start] == c;
        if c == QUOTE {
          break;
        }
        if c == BACKSLASH {
          if j + 2 <= |text| {
            Grow(text, start, j, j + 2);
          }
          escaped, j := true, j + 2;
        } else {
          if c < 0x20 {
            return Err(JSON_CONTROL), escaped;
          }
          Grow(text, start, j, j + 1);
          j := j + 1;
        }
      }
      end := Ok(j);
    }

    /** The scan from `j` on, which may have stepped past the end. */
    static ghost function Ahead(t: Text, j: nat): Result<nat> {
      if j <= |t| then ClosingQuote(t, j) else Err(JSON_STRING)
    }

    static lemma QuoteStep(t: Text, j: nat)
      ensures j >= |t| ==> Ahead(t, j) == Err(JSON_STRING)
      ensures j < |t| && t[j] == QUOTE ==> Ahead(t, j) == Ok(j)
      ensures j < |t| && t[j] == BACKSLASH ==> Ahead(t, j) == Ahead(t, j + 2)
      ensures j < |t| && t[j] < 0x20 ==> Ahead(t, j) == Err(JSON_CONTROL)
      ensures j < |t| && t[j] >= 0x20 && t[j] != QUOTE && t[j] != BACKSLASH ==> Ahead(t, j) == Ahead(t, j + 1)
    {
    }

    /** Reads a string literal; the index stands on its opening quote. */
    method String() returns (r: Result<Text>)
      requires Valid() && i < |text|
      modifies this
      ensures Valid() && i >= old(i)
      ensures match ReadString(old(Rest())[1..])
              case Ok(s) => r == Ok(s.text) && Rest() == s.rest && i > old(i)
              case Err(e) => r == Err(e)
    {
      hide Unescape, ClosingQuote;
      var start := i + 1;
      i := start;
      ghost var t := text[start..];
      assert old(Rest())[1..] == t;
      var j, escaped := FindQuote(start);
      if j.Err? {
        return Err(j.code);
      }
      i := j.value + 1;
      var raw := text[start..j.value];
      assert t[..j.value - start] == raw && t[j.value - start + 1..] == text[i..];
      if escaped {
        match Unescape(raw) {
          case None => r := Err(JSON_ESCAPE);
          case Some(s) => r := Ok(s);
        }
      } else {
        r := Ok(raw);
      }
    }

    static lemma Grow(t: Text, start: nat, j: nat, k: nat)
      requires start <= j < k <= |t| && (k == j + 1 || (k == j + 2 && t[j] == BACKSLASH))
      ensures BACKSLASH in t[start..k] <==> BACKSLASH in t[start..j] || t[j] == BACKSLASH
    {
      assert t[start..k] == t[start..j] + t[j..k];
      assert t[j..k][0] == t[j];
    }

    method Digits() returns (some: bool)
      requires Valid()
      modifies this
      ensures Valid() && i == old(i) + DigitRun(text, old(i)) && (some <==> i > old(i))
    {
      var s := i;
      while i < |text| && IsDigit(text[i])
        invariant s <= i <= |text|
        invariant i + DigitRun(text, i) == s + DigitRun(text, s)
      {
        i := i + 1;
      }
      some := i > s;
    }

    /** The fraction after a number's digits, if there is one; whether there was. */
    method Fraction() returns (r: Result<bool>)
      requires Valid()
      modifies this
      ensures Valid()
      ensures match FractionEnd(text, old(i))
              case Ok(end) => i == end && r == Ok(end > old(i))
              case Err(e) => r == Err(e)
    {
      hide DigitRun;
      if !(i < |text| && text[i] == 0x2e) {
        return Ok(false);
      }
      i := i + 1;
      var any := Digits();
      if !any {
        return Err(JSON_FRACTION);
      }
      r := Ok(true);
    }

    method Exponent() returns (r: Result<bool>)
      requires Valid()
      modifies this
      ensures Valid()
      ensures match ExponentEnd(text, old(i))
              case Ok(end) => i == end && r == Ok(end > old(i))
              case Err(e) => r == Err(e)
    {
      hide DigitRun;
      if !(i < |text| && (text[i] == 0x65 || text[i] == 0x45)) {
        return Ok(false);
      }
      i := i + 1;
      if i < |text| && (text[i] == 0x2b || text[i] == 0x2d) {
        i := i + 1;
      }
      var any := Digits();
      if !any {
        return Err(JSON_EXPONENT);
      }
      r := Ok(true);
    }

    method Number() returns (r: Result<Value>)
      requires Valid()
      modifies this
      ensures Valid()
      ensures match ReadNumber(old(Rest()))
              case Ok(p) => r == Ok(p.value) && Rest() == p.rest && i > old(i)
              case Err(e) => r == Err(e)
    {
      hide ReadNumber, DigitRun, DigitsValue, FractionEnd, ExponentEnd, IntegerValue;
      var start := i;
      if Char() == Some(0x2d) {
        i := i + 1;
      }
      var digitsStart := i;
      SignAt(text, start);
      var any := Digits();
      if !any {
        NoDigits(text, start, digitsStart);
        return Err(JSON_NUMBER);
      }
      var whole := i;
      ghost var f := FractionEnd(text, whole);
      var fraction := Fraction();
      if fraction.Err? {
        BadFraction(text, start, digitsStart, whole);
        return Err(fraction.code);
      }
      ghost var end := ExponentEnd(text, i);
      var exponent := Exponent();
      if exponent.Err? {
        BadExponent(text, start, digitsStart, whole, f.value);
        return Err(exponent.code);
      }
      var token := text[start..i];
      if |token| > MAX_TOKEN {
        LongNumber(text, start, digitsStart, whole, f.value, i);
        return Err(JSON_NUMBER_LENGTH);
      }
      if !fraction.value && !exponent.value {
        AllDigits(text, digitsStart, whole);
        WholeNumber(text, start, digitsStart, whole, f.value, i);
        var magnitude := DigitsValue(text[digitsStart..whole]);
        r := Ok(IntegerValue(token, if digitsStart > start then -(magnitude as int) else magnitude));
      } else {
        PartNumber(text, start, digitsStart, whole, f.value, i);
        r := Ok(Float(token));
      }
    }

    static lemma SignAt(t: Text, start: nat)
      requires start <= |t|
      ensures SignLength(t[start..]) == if start < |t| && t[start] == 0x2d then 1 else 0
    {
    }

    static lemma NoDigits(t: Text, start: nat, digits: nat)
      requires start <= digits <= |t| && digits == start + SignLength(t[start..]) && DigitRun(t, digits) == 0
      ensures ReadNumber(t[start..]) == Err(JSON_NUMBER)
    {
      DigitRunShift(t, start, digits - start);
    }

    static lemma BadFraction(t: Text, start: nat, digits: nat, whole: nat)
      requires start <= digits < whole <= |t| && digits == start + SignLength(t[start..])
      requires whole == digits + DigitRun(t, digits) && FractionEnd(t, whole).Err?
      ensures ReadNumber(t[start..]) == Err(FractionEnd(t, whole).code)
    {
      hide DigitRun, FractionEnd, SignLength, ReadNumber;
      DigitRunShift(t, start, digits - start);
      FractionShift(t, start, whole - start);
      NoFraction(t[start..]);
    }

    static lemma NoFraction(s: Text)
      requires DigitRun(s, SignLength(s)) > 0 && SignLength(s) + DigitRun(s, SignLength(s)) <= |s|
      requires FractionEnd(s, SignLength(s) + DigitRun(s, SignLength(s))).Err?
      ensures ReadNumber(s) == Err(FractionEnd(s, SignLength(s) + DigitRun(s, SignLength(s))).code)
    {
      hide DigitRun, FractionEnd, SignLength;
    }

    static lemma BadExponent(t: Text, start: nat, digits: nat, whole: nat, fraction: nat)
      requires start <= digits < whole <= fraction <= |t| && digits == start + SignLength(t[start..])
      requires whole == digits + DigitRun(t, digits) && FractionEnd(t, whole) == Ok(fraction)
      requires ExponentEnd(t, fraction).Err?
      ensures ReadNumber(t[start..]) == Err(ExponentEnd(t, fraction).code)
    {
      hide DigitRun, FractionEnd, ExponentEnd, SignLength, ReadNumber;
      DigitRunShift(t, start, digits - start);
      FractionShift(t, start, whole - start);
      ExponentShift(t, start, fraction - start);
      NoExponent(t[start..], fraction - start);
    }

    static lemma NoExponent(s: Text, fraction: nat)
      requires DigitRun(s, SignLength(s)) > 0
      requires FractionEnd(s, SignLength(s) + DigitRun(s, SignLength(s))) == Ok(fraction)
      requires fraction <= |s| && ExponentEnd(s, fraction).Err?
      ensures ReadNumber(s) == Err(ExponentEnd(s, fraction).code)
    {
      hide DigitRun, FractionEnd, ExponentEnd, SignLength;
    }

    /** Where the pieces of the number at an offset end, seen from that offset. */
    static lemma PiecesAt(t: Text, start: nat, digits: nat, whole: nat, fraction: nat, end: nat)
      requires Pieces(t, start, digits, whole, fraction, end)
      ensures var s := t[start..];
              && digits - start == SignLength(s) && whole - start == digits - start + DigitRun(s, digits - start)
              && FractionEnd(s, whole - start) == Ok(fraction - start) && ExponentEnd(s, fraction - start) == Ok(end - start)
    {
      hide DigitRun, FractionEnd, ExponentEnd, SignLength;
      DigitRunShift(t, start, digits - start);
      FractionShift(t, start, whole - start);
      ExponentShift(t, start, fraction - start);
    }

    /** The scan of a number at `start` passed its sign, digits, fraction and exponent at these places. */
    static ghost predicate Pieces(t: Text, start: nat, digits: nat, whole: nat, fraction: nat, end: nat) {
      && start <= digits < whole <= fraction <= end <= |t| && digits == start + SignLength(t[start..])
      && whole == digits + DigitRun(t, digits) && FractionEnd(t, whole) == Ok(fraction) && ExponentEnd(t, fraction) == Ok(end)
    }

    static lemma LongNumber(t: Text, start: nat, digits: nat, whole: nat, fraction: nat, end: nat)
      requires Pieces(t, start, digits, whole, fraction, end) && end - start > MAX_TOKEN
      ensures ReadNumber(t[start..]) == Err(JSON_NUMBER_LENGTH)
    {
      hide ReadNumber, DigitRun, FractionEnd, ExponentEnd, SignLength;
      PiecesAt(t, start, digits, whole, fraction, end);
      NumberSpans(t[start..], digits - start, whole - start, fraction - start, end - start);
    }

    static lemma WholeNumber(t: Text, start: nat, digits: nat, whole: nat, fraction: nat, end: nat)
      requires Pieces(t, start, digits, whole, fraction, end) && end - start <= MAX_TOKEN && end == whole
      requires forall k | digits <= k < whole :: IsDigit(t[k])
      ensures var magnitude := DigitsValue(t[digits..whole]);
              ReadNumber(t[start..])
              == Ok(Parsed(IntegerValue(t[start..end], if digits > start then -(magnitude as int) else magnitude), t[end..]))
    {
      hide ReadNumber, DigitRun, FractionEnd, ExponentEnd, SignLength, IntegerValue, DigitsValue, Pieces;
      PiecesAt(t, start, digits, whole, fraction, end);
      PieceOrder(t, start, digits, whole, fraction, end);
      Shifted(t, start, start, end);
      Shifted(t, start, end, |t|);
      Shifted(t, start, digits, whole);
      NumberSpans(t[start..], digits - start, whole - start, fraction - start, end - start);
    }

    static lemma PartNumber(t: Text, start: nat, digits: nat, whole: nat, fraction: nat, end: nat)
      requires Pieces(t, start, digits, whole, fraction, end) && end - start <= MAX_TOKEN && end > whole
      ensures ReadNumber(t[start..]) == Ok(Parsed(Float(t[start..end]), t[end..]))
    {
      hide ReadNumber, DigitRun, FractionEnd, ExponentEnd, SignLength, IntegerValue, DigitsValue, Pieces;
      PiecesAt(t, start, digits, whole, fraction, end);
      PieceOrder(t, start, digits, whole, fraction, end);
      Shifted(t, start, start, end);
      Shifted(t, start, end, |t|);
      NumberSpans(t[start..], digits - start, whole - start, fraction - start, end - start);
    }

    static lemma PieceOrder(t: Text, start: nat, digits: nat, whole: nat, fraction: nat, end: nat)
      requires Pieces(t, start, digits, whole, fraction, end)
      ensures start <= digits < whole <= fraction <= end <= |t|
    {
    }

    static lemma Shifted(t: Text, start: nat, lo: nat, hi: nat)
      requires start <= lo <= hi <= |t|
      ensures t[start..][lo - start..hi - start] == t[lo..hi]
      ensures hi == |t| ==> t[start..][lo - start..] == t[lo..]
    {
    }

    static lemma AllDigits(t: Text, i: nat, end: nat)
      requires i <= end <= |t| && end == i + DigitRun(t, i)
      ensures forall k | i <= k < end :: IsDigit(t[k])
      ensures forall k | 0 <= k < |t[i..end]| :: IsDigit(t[i..end][k])
    {
    }

    static lemma NumberSpans(s: Text, sign: nat, whole: nat, fraction: nat, end: nat)
      requires sign == SignLength(s) && sign < whole <= fraction <= end <= |s|
      requires whole == sign + DigitRun(s, sign) && FractionEnd(s, whole) == Ok(fraction) && ExponentEnd(s, fraction) == Ok(end)
      ensures forall k | sign <= k < whole :: IsDigit(s[k])
      ensures ReadNumber(s)
           == if end > MAX_TOKEN then Err(JSON_NUMBER_LENGTH)
              else if end == whole then
                var magnitude := DigitsValue(s[sign..whole]);
                Ok(Parsed(IntegerValue(s[..end], if sign > 0 then -(magnitude as int) else magnitude), s[end..]))
              else Ok(Parsed(Float(s[..end]), s[end..]))
    {
      hide FractionEnd, ExponentEnd, IntegerValue, DigitsValue;
    }

    static lemma DigitRunShift(t: Text, start: nat, k: nat)
      requires start + k <= |t|
      ensures DigitRun(t[start..], k) == DigitRun(t, start + k)
      decreases |t| - start - k
    {
      if start + k < |t| {
        DigitRunShift(t, start, k + 1);
      }
    }

    /** Reading at an offset is reading the rest from its start. */
    static lemma FractionShift(t: Text, start: nat, k: nat)
      requires start + k <= |t|
      ensures match FractionEnd(t, start + k)
              case Ok(end) => FractionEnd(t[start..], k) == Ok(end - start)
              case Err(e) => FractionEnd(t[start..], k) == Err(e)
    {
      hide DigitRun, At;
      AtShift(t, start, k);
      if start + k < |t| {
        DigitRunShift(t, start, k + 1);
      }
    }

    static lemma AtShift(t: Text, start: nat, k: nat)
      requires start <= |t|
      ensures At(t[start..], k) == At(t, start + k)
      ensures At(t, start + k).Some? ==> start + k < |t|
    {
    }

    static lemma ExponentShift(t: Text, start: nat, k: nat)
      requires start + k <= |t|
      ensures match ExponentEnd(t, start + k)
              case Ok(end) => ExponentEnd(t[start..], k) == Ok(end - start)
              case Err(e) => ExponentEnd(t[start..], k) == Err(e)
    {
      hide DigitRun, At;
      AtShift(t, start, k);
      AtShift(t, start, k + 1);
      var signed := At(t, start + k + 1) == Some(0x2b) || At(t, start + k + 1) == Some(0x2d);
      if start + k < |t| {
        DigitRunShift(t, start, if signed then k + 2 else k + 1);
      }
    }

    predicate Sees(word: Text)
      reads this
      requires Valid()
      ensures Sees(word) <==> StartsWith(Rest(), word)
    {
      i + |word| <= |text| && text[i..i + |word|] == word
    }

    /** A string, a word or a number. */
    method Scalar() returns (r: Result<Value>)
      requires Valid()
      modifies this
      ensures Valid()
      ensures match ReadScalar(old(Rest()))
              case Ok(p) => r == Ok(p.value) && Rest() == p.rest && i > old(i)
              case Err(e) => r == Err(e)
    {
      hide ReadString, ReadNumber;
      if Char() == Some(0x22) {
        var s :- String();
        r := Ok(Str(s));
      } else if Sees(TRUE) {
        i := i + 4;
        r := Ok(Bool(true));
      } else if Sees(FALSE) {
        i := i + 5;
        r := Ok(Bool(false));
      } else if Sees(NULL) {
        i := i + 4;
        r := Ok(Null);
      } else {
        r := Number();
      }
    }

    method ReadAny(depth: nat) returns (r: Result<Value>)
      requires Valid()
      modifies this
      ensures Valid()
      ensures match ReadValue(old(Rest()), depth)
              case Ok(p) => r == Ok(p.value) && Rest() == p.rest && i > old(i)
              case Err(e) => r == Err(e)
      decreases |text| - i, 1
    {
      hide ReadScalar, Skip, ReadItems, ReadMembers;
      if depth > MAX_DEPTH {
        return Err(JSON_DEPTH);
      }
      SkipSpace();
      var c := Char();
      if c == Some(0x7b) {
        i := i + 1;
        SkipSpace();
        if Char() == Some(0x7d) {
          i := i + 1;
          return Ok(Obj([]));
        }
        r := Members(depth);
      } else if c == Some(0x5b) {
        i := i + 1;
        SkipSpace();
        if Char() == Some(0x5d) {
          i := i + 1;
          return Ok(Arr([]));
        }
        r := Items(depth);
      } else {
        r := Scalar();
      }
    }

    method Items(depth: nat) returns (r: Result<Value>)
      requires Valid()
      modifies this
      ensures Valid()
      ensures match ReadItems(old(Rest()), depth, [])
              case Ok(p) => r == Ok(Arr(p.value)) && Rest() == p.rest && i > old(i)
              case Err(e) => r == Err(e)
      decreases |text| - i, 2
    {
      hide ReadValue, Skip;
      var a: seq<Value> := [];
      while true
        invariant Valid() && i >= old(i)
        invariant ReadItems(Rest(), depth, a) == ReadItems(old(Rest()), depth, [])
        decreases |text| - i
      {
        ghost var at := i;
        var v :- ReadAny(depth + 1);
        a := a + [v];
        SkipSpace();
        var d := Char();
        if d == None {
          return Err(JSON_ARRAY);
        }
        i := i + 1;
        if d == Some(0x2c) {
          continue;
        }
        if d == Some(0x5d) {
          return Ok(Arr(a));
        }
        return Err(JSON_ARRAY);
      }
    }

    /** One member of an object: key, colon, value. */
    method OneMember(depth: nat) returns (r: Result<Member>)
      requires Valid()
      modifies this
      ensures Valid()
      ensures match ReadMember(old(Rest()), depth)
              case Ok(p) => r == Ok(p.value) && Rest() == p.rest && i > old(i)
              case Err(e) => r == Err(e)
      decreases |text| - i, 2
    {
      hide ReadValue, ReadString, Skip;
      SkipSpace();
      if Char() != Some(0x22) {
        return Err(JSON_KEY);
      }
      var k :- String();
      SkipSpace();
      if Char() != Some(0x3a) {
        return Err(JSON_COLON);
      }
      i := i + 1;
      var v :- ReadAny(depth + 1);
      r := Ok(Member(k, v));
    }

    method Members(depth: nat) returns (r: Result<Value>)
      requires Valid()
      modifies this
      ensures Valid()
      ensures match ReadMembers(old(Rest()), depth, [])
              case Ok(p) => r == Ok(Obj(p.value)) && Rest() == p.rest && i > old(i)
              case Err(e) => r == Err(e)
      decreases |text| - i, 3
    {
      hide ReadMember, Skip, Put;
      var o: seq<Member> := [];
      while true
        invariant Valid() && i >= old(i)
        invariant ReadMembers(Rest(), depth, o) == ReadMembers(old(Rest()), depth, [])
        decreases |text| - i
      {
        var m :- OneMember(depth);
        o := Put(o, m);
        SkipSpace();
        var d := Char();
        if d == None {
          return Err(JSON_OBJECT);
        }
        i := i + 1;
        if d == Some(0x2c) {
          continue;
        }
        if d == Some(0x7d) {
          return Ok(Obj(o));
        }
        return Err(JSON_OBJECT);
      }
    }
  }

  method Parse(text: Text) returns (r: Result<Value>)
    ensures r == ParseJson(text)
  {
    hide ReadValue;
    var parser := new Parser(text);
    assert text[0..] == text;
    var v :- parser.ReadAny(0);
    parser.SkipSpace();
    if parser.i != |text| {
      return Err(JSON_TRAILING);
    }
    r := Ok(v);
  }
}
