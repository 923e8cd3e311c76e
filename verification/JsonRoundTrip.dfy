/** Whatever the JSON writer writes, the reader reads back, exactly up to depth 256. */
module JsonRoundTrip {
  import opened Results
  import opened JsonStrings
  import opened Json

  // ---------------------------------------------------------------- what is written, and what comes back

  function Keys(members: seq<Member>): (keys: seq<Text>)
    ensures |keys| == |members|
  {
    seq(|members|, i requires 0 <= i < |members| => members[i].key)
  }

  predicate Distinct(keys: seq<Text>) {
    forall i, j | 0 <= i < j < |keys| :: keys[i] != keys[j]
  }

  /** Null, booleans, safe integers, bigints of at most 400 characters, strings, arrays, and objects of distinct keys. */
  predicate Printable(v: Value) {
    match v
    case Null => true
    case Bool(_) => true
    case Num(n) => -SAFE <= n <= SAFE
    case Big(n) => |Decimal(n)| <= MAX_TOKEN
    case Float(_) => false
    case Str(_) => true
    case Arr(items) => forall i | 0 <= i < |items| :: Printable(items[i])
    case Obj(members) => Distinct(Keys(members)) && forall i | 0 <= i < |members| :: Printable(members[i].value)
  }

  function Max(a: nat, b: nat): nat { if a < b then b else a }

  /** Levels of nesting below a value. */
  function Depth(v: Value): nat
    decreases v, 1
  {
    match v
    case Arr(items) => if items == [] then 0 else 1 + ItemsDepth(items)
    case Obj(members) => if members == [] then 0 else 1 + MembersDepth(members)
    case _ => 0
  }

  function ItemsDepth(items: seq<Value>): nat
    decreases items, 0
  {
    if items == [] then 0 else Max(Depth(items[0]), ItemsDepth(items[1..]))
  }

  function MembersDepth(members: seq<Member>): nat
    decreases members, 0
  {
    if members == [] then 0 else Max(Depth(members[0].value), MembersDepth(members[1..]))
  }

  /** The same value, with bigints that are not safe integers as exact decimal strings. */
  function Lossless(v: Value): Value
    decreases v, 1
  {
    match v
    case Big(n) => if -SAFE <= n <= SAFE then Num(n) else Str(Decimal(n))
    case Arr(items) => Arr(LosslessItems(items))
    case Obj(members) => Obj(LosslessMembers(members))
    case _ => v
  }

  function LosslessItems(items: seq<Value>): (r: seq<Value>)
    ensures |r| == |items|
    decreases items, 0
  {
    if items == [] then [] else [Lossless(items[0])] + LosslessItems(items[1..])
  }

  function LosslessMembers(members: seq<Member>): (r: seq<Member>)
    ensures |r| == |members|
    decreases members, 0
  {
    if members == [] then []
    else [Member(members[0].key, Lossless(members[0].value))] + LosslessMembers(members[1..])
  }

  // ---------------------------------------------------------------- numbers

  /** What can follow a value that the writer wrote. */
  predicate Stop(rest: Text) {
    rest == [] || rest[0] == 0x2c || rest[0] == 0x5d || rest[0] == 0x7d
  }

  function Pow10(n: nat): (p: nat)
    ensures p >= 1
  {
    if n == 0 then 1 else 10 * Pow10(n - 1)
  }

  lemma {:induction false} DigitsRead(n: nat)
    ensures forall k | 0 <= k < |DecimalDigits(n)| :: IsDigit(DecimalDigits(n)[k])
    ensures DigitsValue(DecimalDigits(n)) == n
    ensures n < Pow10(|DecimalDigits(n)|)
  {
    var t := DecimalDigits(n);
    if n < 10 {
      assert t[..0] == [];
    } else {
      DigitsRead(n / 10);
      assert t[..|t| - 1] == DecimalDigits(n / 10);
    }
  }

  lemma {:induction false} RunOfDigits(t: Text, i: nat, n: nat)
    requires i + n <= |t|
    requires forall k | i <= k < i + n :: IsDigit(t[k])
    requires i + n < |t| ==> !IsDigit(t[i + n])
    ensures DigitRun(t, i) == n
    decreases n
  {
    if n > 0 {
      RunOfDigits(t, i + 1, n - 1);
    }
  }

  lemma {:induction false} Pow10Grows(a: nat, b: nat)
    requires a <= b
    ensures Pow10(a) <= Pow10(b)
    decreases b - a
  {
    if a < b {
      Pow10Grows(a + 1, b);
    }
  }

  lemma Pow10Fifteen()
    ensures Pow10(15) == 1_000_000_000_000_000
  {
    assert Pow10(5) == 100_000;
    assert Pow10(10) == 100_000 * Pow10(5);
    assert Pow10(15) == 100_000 * Pow10(10);
  }

  /** A number beyond the safe range takes more than 15 characters. */
  lemma UnsafeIsLong(n: nat)
    requires n > SAFE
    ensures |DecimalDigits(n)| > 15
  {
    DigitsRead(n);
    Pow10Fifteen();
    if |DecimalDigits(n)| <= 15 {
      Pow10Grows(|DecimalDigits(n)|, 15);
    }
  }

  lemma NumberReads(n: int, rest: Text)
    requires Stop(rest) && |Decimal(n)| <= MAX_TOKEN
    ensures ReadNumber(Decimal(n) + rest)
         == Ok(Parsed(if -SAFE <= n <= SAFE then Num(n) else Str(Decimal(n)), rest))
  {
    hide DecimalDigits, DigitsValue, DigitRun, Pow10, FractionEnd, ExponentEnd, SignLength;
    var magnitude: nat := if n < 0 then -n else n;
    var digits, sign := DecimalDigits(magnitude), if n < 0 then 1 else 0;
    var t := Decimal(n) + rest;
    DigitsRead(magnitude);
    TokenEnds(n, rest, digits, sign);
    assert t[..sign + |digits|] == Decimal(n) && t[sign + |digits|..] == rest && t[sign..sign + |digits|] == digits;
    if magnitude > SAFE {
      UnsafeIsLong(magnitude);
    }
  }

  /** The token of a written number ends where its digits do. */
  lemma TokenEnds(n: int, rest: Text, digits: Text, sign: nat)
    requires Stop(rest) && sign == (if n < 0 then 1 else 0) && digits == DecimalDigits(if n < 0 then -n else n)
    requires forall k | 0 <= k < |digits| :: IsDigit(digits[k])
    ensures var t := Decimal(n) + rest;
            && |Decimal(n)| == sign + |digits| > sign
            && SignLength(t) == sign && DigitRun(t, sign) == |digits|
            && FractionEnd(t, sign + |digits|) == Ok(sign + |digits|) && ExponentEnd(t, sign + |digits|) == Ok(sign + |digits|)
  {
    hide DecimalDigits, DigitRun;
    var t := Decimal(n) + rest;
    assert forall k | sign <= k < sign + |digits| :: t[k] == digits[k - sign];
    assert sign == 0 ==> IsDigit(t[0]);
    assert rest != [] ==> t[sign + |digits|] == rest[0];
    RunOfDigits(t, sign, |digits|);
  }

  // ---------------------------------------------------------------- heads

  /** A written value starts with none of the characters that the reader skips or treats as an end. */
  lemma Head(v: Value)
    requires Printable(v)
    ensures JsonText(v) != []
    ensures var c := JsonText(v)[0]; !IsSpace(c) && c != 0x5d && c != 0x7d
  {
    match v
    case Num(n) => DigitsRead(if n < 0 then -n else n);
    case Big(n) => DigitsRead(if n < 0 then -n else n);
    case _ =>
  }

  lemma NoSkip(t: Text)
    requires t != [] && !IsSpace(t[0])
    ensures Skip(t) == t
  {
  }

  lemma WordReads(word: Text, rest: Text)
    ensures StartsWith(word + rest, word) && (word + rest)[|word|..] == rest
  {
  }

  lemma ScalarReads(v: Value, rest: Text, depth: nat)
    requires Printable(v) && Stop(rest) && depth <= MAX_DEPTH && !v.Arr? && !v.Obj?
    ensures ReadValue(JsonText(v) + rest, depth) == Ok(Parsed(Lossless(v), rest))
  {
    hide ReadString, ReadNumber, Quoted, Decimal;
    var t := JsonText(v) + rest;
    Head(v);
    NoSkip(t);
    match v
    case Null =>
      WordReads(NULL, rest);
    case Bool(b) =>
      WordReads(if b then TRUE else FALSE, rest);
    case Str(text) =>
      QuotedReads(text, rest);
    case Num(n) =>
      ShortNumber(n);
      NumberReads(n, rest);
      NumberHead(n, rest);
    case Big(n) =>
      NumberReads(n, rest);
      NumberHead(n, rest);
  }

  lemma NumberHead(n: int, rest: Text)
    ensures var t := Decimal(n) + rest; t[0] == 0x2d || IsDigit(t[0])
  {
    DigitsRead(if n < 0 then -n else n);
  }

  lemma {:induction false} DigitsShort(n: nat, width: nat)
    requires n < Pow10(width) && width > 0
    ensures |DecimalDigits(n)| <= width
    decreases width
  {
    if n >= 10 {
      DigitsShort(n / 10, width - 1);
    }
  }

  /** Safe integers are short. */
  lemma ShortNumber(n: int)
    requires -SAFE <= n <= SAFE
    ensures |Decimal(n)| <= MAX_TOKEN
  {
    Pow10Fifteen();
    assert Pow10(16) == 10 * Pow10(15);
    DigitsShort(if n < 0 then -n else n, 16);
  }

  // ---------------------------------------------------------------- structures

  predicate AllPrintable(items: seq<Value>) {
    forall i | 0 <= i < |items| :: Printable(items[i])
  }

  predicate MembersPrintable(members: seq<Member>) {
    forall i | 0 <= i < |members| :: Printable(members[i].value)
  }

  function Within<T>(ok: bool, value: T, rest: Text): Result<Parsed<T>> {
    if ok then Ok(Parsed(value, rest)) else Err(JSON_DEPTH)
  }

  lemma {:induction false} PutAppends(members: seq<Member>, m: Member)
    requires forall i | 0 <= i < |members| :: members[i].key != m.key
    ensures Put(members, m) == members + [m]
  {
    if members != [] {
      PutAppends(members[1..], m);
    }
  }

  lemma {:induction false} ValueReads(v: Value, rest: Text, depth: nat)
    requires Printable(v) && Stop(rest)
    ensures ReadValue(JsonText(v) + rest, depth) == Within(depth + Depth(v) <= MAX_DEPTH, Lossless(v), rest)
    decreases v, 1
  {
    hide ReadString, ReadNumber, ReadItems, ReadMembers, ItemsText, MembersText, Printable;
    if depth <= MAX_DEPTH {
      match v
      case Arr(items) => ArrayReads(items, rest, depth);
      case Obj(members) => ObjectReads(members, rest, depth);
      case _ => ScalarReads(v, rest, depth);
    }
  }

  lemma {:induction false} ArrayReads(items: seq<Value>, rest: Text, depth: nat)
    requires Printable(Arr(items)) && Stop(rest) && depth <= MAX_DEPTH
    ensures ReadValue(JsonText(Arr(items)) + rest, depth)
         == Within(depth + Depth(Arr(items)) <= MAX_DEPTH, Lossless(Arr(items)), rest)
    decreases items, 2
  {
    hide ReadString, ReadNumber, ReadItems, ReadMembers, ItemsText;
    var t := JsonText(Arr(items)) + rest;
    NoSkip(t);
    if items == [] {
      assert t[1..] == [0x5d] + rest;
      NoSkip(t[1..]);
    } else {
      var inner := ItemsText(items) + ([0x5d] + rest);
      assert t[1..] == inner;
      ItemsHead(items);
      NoSkip(inner);
      ItemsRead(items, [], rest, depth);
      assert [] + LosslessItems(items) == LosslessItems(items);
    }
  }

  lemma ItemsHead(items: seq<Value>)
    requires AllPrintable(items) && items != []
    ensures ItemsText(items) != []
    ensures var c := ItemsText(items)[0]; !IsSpace(c) && c != 0x5d
  {
    hide JsonText;
    Head(items[0]);
  }

  lemma {:induction false} ItemsRead(items: seq<Value>, before: seq<Value>, rest: Text, depth: nat)
    requires AllPrintable(items) && items != [] && depth <= MAX_DEPTH
    ensures ReadItems(ItemsText(items) + ([0x5d] + rest), depth, before)
         == Within(depth + 1 + ItemsDepth(items) <= MAX_DEPTH, before + LosslessItems(items), rest)
    decreases items, 1
  {
    hide ReadValue, JsonText, Depth, Lossless, Printable;
    var t := ItemsText(items) + ([0x5d] + rest);
    var head, tail := items[0], items[1..];
    assert ItemsDepth(items) == Max(Depth(head), ItemsDepth(tail));
    if tail == [] {
      assert t == JsonText(head) + ([0x5d] + rest);
      ValueReads(head, [0x5d] + rest, depth + 1);
      NoSkip([0x5d] + rest);
      assert LosslessItems(items) == [Lossless(head)];
    } else {
      var after := [0x2c] + (ItemsText(tail) + ([0x5d] + rest));
      assert t == JsonText(head) + after;
      ValueReads(head, after, depth + 1);
      NoSkip(after);
      assert after[1..] == ItemsText(tail) + ([0x5d] + rest);
      ItemsRead(tail, before + [Lossless(head)], rest, depth);
      assert before + [Lossless(head)] + LosslessItems(tail) == before + LosslessItems(items);
    }
  }

  lemma {:induction false} ObjectReads(members: seq<Member>, rest: Text, depth: nat)
    requires Printable(Obj(members)) && Stop(rest) && depth <= MAX_DEPTH
    ensures ReadValue(JsonText(Obj(members)) + rest, depth)
         == Within(depth + Depth(Obj(members)) <= MAX_DEPTH, Lossless(Obj(members)), rest)
    decreases members, 2
  {
    hide ReadString, ReadNumber, ReadItems, ReadMembers, MembersText;
    var t := JsonText(Obj(members)) + rest;
    NoSkip(t);
    if members == [] {
      assert t[1..] == [0x7d] + rest;
      NoSkip(t[1..]);
    } else {
      var inner := MembersText(members) + ([0x7d] + rest);
      assert t[1..] == inner;
      MembersHead(members);
      NoSkip(inner);
      assert Keys([]) + Keys(members) == Keys(members);
      MembersRead(members, [], rest, depth);
      assert [] + LosslessMembers(members) == LosslessMembers(members);
    }
  }

  lemma MembersHead(members: seq<Member>)
    requires members != []
    ensures MembersText(members) != [] && MembersText(members)[0] == 0x22
  {
    hide JsonText, EscapedFrom;
  }

  /** Reading one member of an object, up to what follows it. */
  lemma MemberReads(m: Member, after: Text, depth: nat)
    requires ReadValue(JsonText(m.value) + after, depth + 1) == Within(depth + 1 + Depth(m.value) <= MAX_DEPTH, Lossless(m.value), after)
    ensures ReadMember(MemberText(m) + after, depth)
         == Within(depth + 1 + Depth(m.value) <= MAX_DEPTH, Member(m.key, Lossless(m.value)), after)
  {
    hide ReadValue, JsonText, Depth, Lossless, Quoted, ReadString;
    var text := JsonText(m.value);
    var t := MemberText(m) + after;
    Nest(Quoted(m.key), [0x3a], text, after);
    QuotedReads(m.key, [0x3a] + (text + after));
    NoSkip(t);
    NoSkip([0x3a] + (text + after));
    assert ([0x3a] + (text + after))[1..] == text + after;
  }

  /** What follows the first of some members. */
  function AfterMember(members: seq<Member>, rest: Text): Text
    requires members != []
  {
    if |members| == 1 then [0x7d] + rest else [0x2c] + (MembersText(members[1..]) + ([0x7d] + rest))
  }

  lemma MembersSplit(members: seq<Member>, rest: Text)
    requires members != []
    ensures MembersText(members) + ([0x7d] + rest) == MemberText(members[0]) + AfterMember(members, rest)
    ensures var after := AfterMember(members, rest);
            && after != [] && after[0] == (if |members| == 1 then 0x7d else 0x2c) && Stop(after) && Skip(after) == after
            && after[1..] == (if |members| == 1 then rest else MembersText(members[1..]) + ([0x7d] + rest))
  {
    hide MemberText;
    if |members| > 1 {
      Nest(MemberText(members[0]), [0x2c], MembersText(members[1..]), [0x7d] + rest);
    }
  }

  lemma KeysShift(before: seq<Member>, stored: Member, members: seq<Member>)
    requires members != [] && stored.key == members[0].key
    ensures Keys(before + [stored]) + Keys(members[1..]) == Keys(before) + Keys(members)
  {
  }

  lemma Cons<T>(a: seq<T>, x: T, b: seq<T>)
    ensures a + [x] + b == a + ([x] + b)
  {
  }

  lemma {:induction false} MembersRead(members: seq<Member>, before: seq<Member>, rest: Text, depth: nat)
    requires MembersPrintable(members) && members != [] && depth <= MAX_DEPTH
    requires Distinct(Keys(before) + Keys(members))
    ensures ReadMembers(MembersText(members) + ([0x7d] + rest), depth, before)
         == Within(depth + 1 + MembersDepth(members) <= MAX_DEPTH, before + LosslessMembers(members), rest)
    decreases members, 1
  {
    hide ReadValue, ReadMember, JsonText, Depth, Lossless, Printable, MemberText, MembersText, Distinct, Keys, LosslessMembers, Put,
      AfterMember, Skip;
    var head, tail := members[0], members[1..];
    var stored, after := Member(head.key, Lossless(head.value)), AfterMember(members, rest);
    MembersSplit(members, rest);
    ValueReads(head.value, after, depth + 1);
    MemberReads(head, after, depth);
    NewKey(before, members);
    PutAppends(before, stored);
    Cons(before, stored, LosslessMembers(tail));
    LosslessHead(members);
    if tail == [] {
      NoMembers();
      assert before + [stored] + [] == before + [stored];
    } else {
      KeysShift(before, stored, members);
      MembersRead(tail, before + [stored], rest, depth);
    }
  }

  lemma LosslessHead(members: seq<Member>)
    requires members != []
    ensures LosslessMembers(members) == [Member(members[0].key, Lossless(members[0].value))] + LosslessMembers(members[1..])
    ensures MembersDepth(members) == Max(Depth(members[0].value), MembersDepth(members[1..]))
  {
    hide Lossless, Depth;
  }

  lemma NoMembers()
    ensures LosslessMembers([]) == [] && MembersDepth([]) == 0
  {
  }

  lemma Nest(a: Text, b: Text, c: Text, d: Text)
    ensures (a + (b + c)) + d == a + (b + (c + d))
  {
  }

  lemma NewKey(before: seq<Member>, members: seq<Member>)
    requires members != [] && Distinct(Keys(before) + Keys(members))
    ensures forall i | 0 <= i < |before| :: before[i].key != members[0].key
  {
    var keys := Keys(before) + Keys(members);
    forall i | 0 <= i < |before|
      ensures before[i].key != members[0].key
    {
      assert keys[i] == before[i].key && keys[|before|] == members[0].key;
    }
  }

  /** Every value of the fragment comes back, bigints beyond the safe range as exact decimal strings, exactly when its depth is at
      most 256; a deeper one is refused for its depth. */
  lemma RoundTrip(v: Value)
    requires Printable(v)
    ensures ParseJson(JsonText(v)) == if Depth(v) <= MAX_DEPTH then Ok(Lossless(v)) else Err(JSON_DEPTH)
  {
    hide ReadValue, JsonText;
    ValueReads(v, [], 0);
    assert JsonText(v) + [] == JsonText(v);
  }
}
