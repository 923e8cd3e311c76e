/** The lossless JSON reader and writer (scripts/chain/json.mjs:9-113). */
module Json {
  import opened Results
  import opened JsonStrings

  /** Values of the modelled fragment. `Num` is a safe integer, `Big` a bigint to write, `Float` a number token with a fraction
      or an exponent, kept as read. */
  datatype Value =
    | Null
    | Bool(b: bool)
    | Num(n: int)
    | Big(n: int)
    | Float(token: Text)
    | Str(text: Text)
    | Arr(items: seq<Value>)
    | Obj(members: seq<Member>)

  datatype Member = Member(key: Text, value: Value)

  const SAFE := 0x1f_ffff_ffff_ffff
  const MAX_DEPTH := 256
  const MAX_TOKEN := 400

  // ---------------------------------------------------------------- writing

  function DecimalDigits(n: nat): (t: Text)
    ensures t != []
  {
    if n < 10 then [0x30 + n] else DecimalDigits(n / 10) + [0x30 + n % 10]
  }

  function Decimal(n: int): Text {
    if n < 0 then [0x2d] + DecimalDigits(-n) else DecimalDigits(n)
  }

  const NULL: Text := [0x6e, 0x75, 0x6c, 0x6c]
  const TRUE: Text := [0x74, 0x72, 0x75, 0x65]
  const FALSE: Text := [0x66, 0x61, 0x6c, 0x73, 0x65]

  function JsonText(v: Value): Text
    decreases v, 1
  {
    match v
    case Null => NULL
    case Bool(b) => if b then TRUE else FALSE
    case Num(n) => Decimal(n)
    case Big(n) => Decimal(n)
    case Float(token) => token
    case Str(text) => Quoted(text)
    case Arr(items) => [0x5b] + (if items == [] then [] else ItemsText(items)) + [0x5d]
    case Obj(members) => [0x7b] + (if members == [] then [] else MembersText(members)) + [0x7d]
  }

  /** Comma-separated items. */
  function ItemsText(items: seq<Value>): Text
    requires items != []
    decreases items, 0
  {
    if |items| == 1 then JsonText(items[0]) else JsonText(items[0]) + ([0x2c] + ItemsText(items[1..]))
  }

  function MemberText(m: Member): Text
    decreases m, 2
  {
    Quoted(m.key) + ([0x3a] + JsonText(m.value))
  }

  function MembersText(members: seq<Member>): Text
    requires members != []
    decreases members, 0
  {
    if |members| == 1 then MemberText(members[0]) else MemberText(members[0]) + ([0x2c] + MembersText(members[1..]))
  }

  // ---------------------------------------------------------------- reading

  predicate IsSpace(u: Unit) {
    u == 0x20 || u == 0x0a || u == 0x0d || u == 0x09
  }

  function Skip(t: Text): (r: Text)
    ensures |r| <= |t|
    ensures r != [] ==> !IsSpace(r[0])
  {
    if t != [] && IsSpace(t[0]) then Skip(t[1..]) else t
  }

  predicate IsDigit(u: Unit) {
    0x30 <= u <= 0x39
  }

  /** How many digits `t` has from index `i` on. */
  function DigitRun(t: Text, i: nat): (n: nat)
    requires i <= |t|
    ensures i + n <= |t|
    ensures forall k | i <= k < i + n :: IsDigit(t[k])
    ensures i + n < |t| ==> !IsDigit(t[i + n])
    decreases |t| - i
  {
    if i < |t| && IsDigit(t[i]) then 1 + DigitRun(t, i + 1) else 0
  }

  function At(t: Text, i: nat): Option<Unit> {
    if i < |t| then Some(t[i]) else None
  }

  /** The value of a run of digits, most significant first. */
  function DigitsValue(t: Text): nat
    requires forall k | 0 <= k < |t| :: IsDigit(t[k])
  {
    if t == [] then 0
    else
      var last: int := t[|t| - 1];
      assert IsDigit(last);
      DigitsValue(t[..|t| - 1]) * 10 + (last - 0x30)
  }

  function SignLength(t: Text): nat {
    if At(t, 0) == Some(0x2d) then 1 else 0
  }

  function FractionEnd(t: Text, i: nat): (r: Result<nat>)
    requires i <= |t|
    ensures r.Ok? ==> i <= r.value <= |t|
  {
    if At(t, i) == Some(0x2e) then
      var n := DigitRun(t, i + 1);
      if n == 0 then Err(JSON_FRACTION) else Ok(i + 1 + n)
    else Ok(i)
  }

  function ExponentEnd(t: Text, i: nat): (r: Result<nat>)
    requires i <= |t|
    ensures r.Ok? ==> i <= r.value <= |t|
  {
    if At(t, i) == Some(0x65) || At(t, i) == Some(0x45) then
      var from := if At(t, i + 1) == Some(0x2b) || At(t, i + 1) == Some(0x2d) then i + 2 else i + 1;
      var n := DigitRun(t, from);
      if n == 0 then Err(JSON_EXPONENT) else Ok(from + n)
    else Ok(i)
  }

  datatype Parsed<T> = Parsed(value: T, rest: Text)

  /** An integer token: exact within the safe range, else the token itself. */
  function IntegerValue(token: Text, n: int): Value {
    if |token| > 15 && !(-SAFE <= n <= SAFE) then Str(token) else Num(n)
  }

  function ReadNumber(t: Text): (r: Result<Parsed<Value>>)
    ensures r.Ok? ==> |r.value.rest| < |t|
  {
    var sign := SignLength(t);
    var n := DigitRun(t, sign);
    var _ :- Check(n > 0, JSON_NUMBER);
    var whole := sign + n;
    var fraction :- FractionEnd(t, whole);
    var end :- ExponentEnd(t, fraction);
    var token := t[..end];
    var _ :- Check(|token| <= MAX_TOKEN, JSON_NUMBER_LENGTH);
    if end == whole then
      var magnitude := DigitsValue(t[sign..whole]);
      Ok(Parsed(IntegerValue(token, if sign == 1 then -(magnitude as int) else magnitude), t[end..]))
    else Ok(Parsed(Float(token), t[end..]))
  }

  predicate StartsWith(t: Text, word: Text) {
    |word| <= |t| && t[..|word|] == word
  }

  /** Defines or redefines a property, keeping its place. */
  function Put(members: seq<Member>, m: Member): seq<Member> {
    if members == [] then [m]
    else if members[0].key == m.key then [m] + members[1..]
    else [members[0]] + Put(members[1..], m)
  }

  /** A string, a word or a number. */
  function ReadScalar(s: Text): (r: Result<Parsed<Value>>)
    ensures r.Ok? ==> |r.value.rest| < |s|
  {
    if At(s, 0) == Some(0x22) then
      var p :- ReadString(s[1..]);
      Ok(Parsed(Str(p.text), p.rest))
    else if StartsWith(s, TRUE) then Ok(Parsed(Bool(true), s[4..]))
    else if StartsWith(s, FALSE) then Ok(Parsed(Bool(false), s[5..]))
    else if StartsWith(s, NULL) then Ok(Parsed(Null, s[4..]))
    else ReadNumber(s)
  }

  function ReadValue(t: Text, depth: nat): (r: Result<Parsed<Value>>)
    ensures r.Ok? ==> |r.value.rest| < |t|
    decreases |t|, 3
  {
    var _ :- Check(depth <= MAX_DEPTH, JSON_DEPTH);
    var s := Skip(t);
    var c := At(s, 0);
    if c == Some(0x7b) then
      var inner := Skip(s[1..]);
      if At(inner, 0) == Some(0x7d) then Ok(Parsed(Obj([]), inner[1..]))
      else
        var p :- ReadMembers(inner, depth, []);
        Ok(Parsed(Obj(p.value), p.rest))
    else if c == Some(0x5b) then
      var inner := Skip(s[1..]);
      if At(inner, 0) == Some(0x5d) then Ok(Parsed(Arr([]), inner[1..]))
      else
        var p :- ReadItems(inner, depth, []);
        Ok(Parsed(Arr(p.value), p.rest))
    else ReadScalar(s)
  }

  /** Items from the next one on, after those of `before`. */
  function ReadItems(t: Text, depth: nat, before: seq<Value>): (r: Result<Parsed<seq<Value>>>)
    ensures r.Ok? ==> |r.value.rest| < |t|
    decreases |t|, 4
  {
    var p :- ReadValue(t, depth + 1);
    var items := before + [p.value];
    var s := Skip(p.rest);
    if At(s, 0) == Some(0x2c) then ReadItems(s[1..], depth, items)
    else if At(s, 0) == Some(0x5d) then Ok(Parsed(items, s[1..]))
    else Err(JSON_ARRAY)
  }

  /** One member: key, colon, value. */
  function ReadMember(t: Text, depth: nat): (r: Result<Parsed<Member>>)
    ensures r.Ok? ==> |r.value.rest| < |t|
    decreases |t|, 4
  {
    var s := Skip(t);
    var _ :- Check(At(s, 0) == Some(0x22), JSON_KEY);
    var k :- ReadString(s[1..]);
    var colon := Skip(k.rest);
    var _ :- Check(At(colon, 0) == Some(0x3a), JSON_COLON);
    var p :- ReadValue(colon[1..], depth + 1);
    Ok(Parsed(Member(k.text, p.value), p.rest))
  }

  function ReadMembers(t: Text, depth: nat, before: seq<Member>): (r: Result<Parsed<seq<Member>>>)
    ensures r.Ok? ==> |r.value.rest| < |t|
    decreases |t|, 5
  {
    var p :- ReadMember(t, depth);
    var members := Put(before, p.value);
    var d := Skip(p.rest);
    if At(d, 0) == Some(0x2c) then ReadMembers(d[1..], depth, members)
    else if At(d, 0) == Some(0x7d) then Ok(Parsed(members, d[1..]))
    else Err(JSON_OBJECT)
  }

  function ParseJson(t: Text): Result<Value> {
    var p :- ReadValue(t, 0);
    var _ :- Check(Skip(p.rest) == [], JSON_TRAILING);
    Ok(p.value)
  }
}
