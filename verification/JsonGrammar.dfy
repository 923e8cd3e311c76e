/** The grammar of the JSON that the parser takes, written apart from it: documents with their layout and escapes, the text that
    spells a document and the value that it stands for. The parser takes exactly these texts (scripts/chain/json.mjs:9-97). */
module JsonGrammar {
  import opened Results
  import opened JsonStrings
  import opened Json
  import opened JsonRoundTrip

  // ---------------------------------------------------------------- documents

  /** A character of a string literal: itself, a short escape, or four hexadecimal digits. */
  datatype Char = Plain(unit: Unit) | Short(letter: Unit) | Code(digits: Text)

  /** `e` or `E`, an optional sign, digits. */
  datatype Exponent = Exponent(letter: Unit, sign: Text, digits: Text)

  datatype Numeral = Numeral(negative: bool, whole: Text, fraction: Option<Text>, exponent: Option<Exponent>)

  datatype Doc =
    | NullDoc
    | BoolDoc(b: bool)
    | NumberDoc(n: Numeral)
    | StringDoc(chars: seq<Char>)
    | ArrayDoc(blank: Text, items: seq<Item>)
    | ObjectDoc(blank: Text, entries: seq<Entry>)

  /** An element with the blanks around it. */
  datatype Item = Item(before: Text, doc: Doc, after: Text)

  /** A key, blanks around it, and its element after the colon. */
  datatype Entry = Entry(before: Text, key: seq<Char>, gap: Text, item: Item)

  predicate Blank(t: Text) {
    forall i | 0 <= i < |t| :: t[i] == 0x20 || t[i] == 0x09 || t[i] == 0x0a || t[i] == 0x0d
  }

  predicate AllDigits(t: Text) {
    forall i | 0 <= i < |t| :: 0x30 <= t[i] <= 0x39
  }

  /** The value of a hexadecimal digit of either case. */
  function HexValue(u: Unit): Option<nat> {
    if 0x30 <= u <= 0x39 then Some(u - 0x30)
    else if 0x61 <= u <= 0x66 then Some(u - 0x61 + 10)
    else if 0x41 <= u <= 0x46 then Some(u - 0x41 + 10)
    else None
  }

  predicate CharOk(c: Char) {
    match c
    case Plain(u) => u >= 0x20 && u != 0x22 && u != 0x5c
    case Short(l) => l in {0x22, 0x5c, 0x2f, 0x62, 0x66, 0x6e, 0x72, 0x74}
    case Code(d) => |d| == 4 && forall i | 0 <= i < 4 :: HexValue(d[i]).Some?
  }

  function CharText(c: Char): Text {
    match c
    case Plain(u) => [u]
    case Short(l) => [0x5c, l]
    case Code(d) => [0x5c, 0x75] + d
  }

  /** The unit that a character stands for; the letters b, f, n, r and t escape control characters. */
  function CharUnit(c: Char): Unit
    requires CharOk(c)
  {
    match c
    case Plain(u) => u
    case Short(l) => if l == 0x62 then 8 else if l == 0x66 then 12 else if l == 0x6e then 10 else if l == 0x72 then 13
                     else if l == 0x74 then 9 else l
    case Code(d) => ((HexValue(d[0]).value * 16 + HexValue(d[1]).value) * 16 + HexValue(d[2]).value) * 16 + HexValue(d[3]).value
  }

  predicate CharsOk(chars: seq<Char>) {
    forall i | 0 <= i < |chars| :: CharOk(chars[i])
  }

  function CharsText(chars: seq<Char>): Text {
    if chars == [] then [] else CharText(chars[0]) + CharsText(chars[1..])
  }

  function Units(chars: seq<Char>): (s: Text)
    requires CharsOk(chars)
    ensures |s| == |chars|
  {
    seq(|chars|, i requires 0 <= i < |chars| => CharUnit(chars[i]))
  }

  predicate ExponentOk(e: Exponent) {
    (e.letter == 0x65 || e.letter == 0x45) && (e.sign == [] || e.sign == [0x2b] || e.sign == [0x2d])
    && e.digits != [] && AllDigits(e.digits)
  }

  function FractionText(f: Option<Text>): Text {
    match f
    case None => []
    case Some(digits) => [0x2e] + digits
  }

  function ExponentText(e: Option<Exponent>): Text {
    match e
    case None => []
    case Some(x) => [x.letter] + (x.sign + x.digits)
  }

  function NumeralText(n: Numeral): Text {
    (if n.negative then [0x2d] else []) + (n.whole + (FractionText(n.fraction) + ExponentText(n.exponent)))
  }

  /** A numeral of at most 400 characters. */
  predicate NumeralOk(n: Numeral) {
    && n.whole != [] && AllDigits(n.whole)
    && (n.fraction.Some? ==> n.fraction.value != [] && AllDigits(n.fraction.value))
    && (n.exponent.Some? ==> ExponentOk(n.exponent.value))
    && |NumeralText(n)| <= 400
  }

  /** The number that decimal digits denote, most significant first. */
  function Decimals(t: Text): nat
    requires AllDigits(t)
  {
    if t == [] then 0 else (t[0] - 0x30) * Pow10(|t| - 1) + Decimals(t[1..])
  }

  /** An integer is a number, or its own text where it has more than 15 characters and is not safe; anything else is a float. */
  function NumeralValue(n: Numeral): Value
    requires NumeralOk(n)
  {
    if n.fraction == None && n.exponent == None then
      var magnitude := Decimals(n.whole);
      if |NumeralText(n)| > 15 && magnitude > 9_007_199_254_740_991 then Str(NumeralText(n))
      else Num(if n.negative then -(magnitude as int) else magnitude)
    else Float(NumeralText(n))
  }

  predicate DocOk(d: Doc)
    decreases d, 1
  {
    match d
    case NullDoc => true
    case BoolDoc(_) => true
    case NumberDoc(n) => NumeralOk(n)
    case StringDoc(chars) => CharsOk(chars)
    case ArrayDoc(blank, items) => Blank(blank) && ItemsOk(items)
    case ObjectDoc(blank, entries) => Blank(blank) && EntriesOk(entries)
  }

  predicate Spaced(i: Item) {
    Blank(i.before) && Blank(i.after)
  }

  predicate Keyed(e: Entry) {
    Blank(e.before) && CharsOk(e.key) && Blank(e.gap) && Spaced(e.item)
  }

  predicate ItemsOk(items: seq<Item>)
    decreases items, 0
  {
    items == [] || (Spaced(items[0]) && DocOk(items[0].doc) && ItemsOk(items[1..]))
  }

  predicate EntriesOk(entries: seq<Entry>)
    decreases entries, 0
  {
    entries == [] || (Keyed(entries[0]) && DocOk(entries[0].item.doc) && EntriesOk(entries[1..]))
  }

  // ---------------------------------------------------------------- the text of a document

  /** The text of a document, in front of `rest`. */
  function Spell(d: Doc, rest: Text): Text
    decreases d, 1
  {
    match d
    case NullDoc => [0x6e, 0x75, 0x6c, 0x6c] + rest
    case BoolDoc(b) => (if b then [0x74, 0x72, 0x75, 0x65] else [0x66, 0x61, 0x6c, 0x73, 0x65]) + rest
    case NumberDoc(n) => NumeralText(n) + rest
    case StringDoc(chars) => [0x22] + (CharsText(chars) + ([0x22] + rest))
    case ArrayDoc(blank, items) => [0x5b] + if items == [] then blank + ([0x5d] + rest) else SpellItems(items, rest)
    case ObjectDoc(blank, entries) => [0x7b] + if entries == [] then blank + ([0x7d] + rest) else SpellEntries(entries, rest)
  }

  function SpellItem(i: Item, rest: Text): Text
    decreases i, 2
  {
    i.before + Spell(i.doc, i.after + rest)
  }

  function SpellItems(items: seq<Item>, rest: Text): Text
    requires items != []
    decreases items, 0
  {
    SpellItem(items[0], if |items| == 1 then [0x5d] + rest else [0x2c] + SpellItems(items[1..], rest))
  }

  function SpellEntry(e: Entry, rest: Text): Text
    decreases e, 3
  {
    e.before + ([0x22] + (CharsText(e.key) + ([0x22] + (e.gap + ([0x3a] + SpellItem(e.item, rest))))))
  }

  function SpellEntries(entries: seq<Entry>, rest: Text): Text
    requires entries != []
    decreases entries, 0
  {
    SpellEntry(entries[0], if |entries| == 1 then [0x7d] + rest else [0x2c] + SpellEntries(entries[1..], rest))
  }

  // ---------------------------------------------------------------- the value of a document

  function Without(members: seq<Member>, key: Text): (ms: seq<Member>)
    ensures |ms| <= |members|
  {
    if members == [] then [] else (if members[0].key == key then [] else [members[0]]) + Without(members[1..], key)
  }

  /** The value that a key has last. */
  function LastOf(members: seq<Member>, key: Text, before: Value): Value {
    if members == [] then before
    else LastOf(members[1..], key, if members[0].key == key then members[0].value else before)
  }

  /** Members as an object keeps them: each key where it first stands, with the value that it has last. */
  function Kept(members: seq<Member>): seq<Member>
    decreases |members|
  {
    if members == [] then []
    else
      var m, others := members[0], members[1..];
      [Member(m.key, LastOf(others, m.key, m.value))] + Kept(Without(others, m.key))
  }

  function ValueOf(d: Doc): Value
    requires DocOk(d)
    decreases d, 1
  {
    match d
    case NullDoc => Null
    case BoolDoc(b) => Bool(b)
    case NumberDoc(n) => NumeralValue(n)
    case StringDoc(chars) => Str(Units(chars))
    case ArrayDoc(_, items) => Arr(ItemValues(items))
    case ObjectDoc(_, entries) => Obj(Kept(EntryMembers(entries)))
  }

  function ItemValues(items: seq<Item>): (vs: seq<Value>)
    requires ItemsOk(items)
    ensures |vs| == |items|
    decreases items, 0
  {
    if items == [] then [] else [ValueOf(items[0].doc)] + ItemValues(items[1..])
  }

  function EntryMembers(entries: seq<Entry>): (ms: seq<Member>)
    requires EntriesOk(entries)
    ensures |ms| == |entries|
    decreases entries, 0
  {
    if entries == [] then []
    else [Member(Units(entries[0].key), ValueOf(entries[0].item.doc))] + EntryMembers(entries[1..])
  }

  /** How deep a document nests; an empty array or object does not nest. */
  function Nesting(d: Doc): nat
    decreases d, 1
  {
    match d
    case ArrayDoc(_, items) => if items == [] then 0 else 1 + ItemsNesting(items)
    case ObjectDoc(_, entries) => if entries == [] then 0 else 1 + EntriesNesting(entries)
    case _ => 0
  }

  function ItemsNesting(items: seq<Item>): nat
    decreases items, 0
  {
    if items == [] then 0 else Max(Nesting(items[0].doc), ItemsNesting(items[1..]))
  }

  function EntriesNesting(entries: seq<Entry>): nat
    decreases entries, 0
  {
    if entries == [] then 0 else Max(Nesting(entries[0].item.doc), EntriesNesting(entries[1..]))
  }

  // ---------------------------------------------------------------- blanks

  lemma {:induction false} SkipsBlank(b: Text, t: Text)
    requires Blank(b) && (t != [] ==> !IsSpace(t[0]))
    ensures Skip(b + t) == t
  {
    if b == [] {
      assert b + t == t;
    } else {
      assert (b + t)[1..] == b[1..] + t;
      SkipsBlank(b[1..], t);
    }
  }

  lemma {:induction false} SkipSplits(t: Text) returns (b: Text)
    ensures Blank(b) && t == b + Skip(t)
  {
    if t != [] && IsSpace(t[0]) {
      var more := SkipSplits(t[1..]);
      b := [t[0]] + more;
      assert t == [t[0]] + t[1..];
    } else {
      b := [];
    }
  }

  // ---------------------------------------------------------------- strings

  lemma HexValues(u: Unit)
    ensures HexValue(u) == DigitValue(u) && (DigitValue(u).Some? ==> DigitValue(u).value < 16)
  {
  }

  lemma HexRead(d: Text, rest: Text)
    requires CharOk(Code(d))
    ensures ReadHex4(d + rest) == Some(CharUnit(Code(d)))
  {
    hide HexValue, DigitValue;
    HexValues(d[0]);
    HexValues(d[1]);
    HexValues(d[2]);
    HexValues(d[3]);
  }

  lemma CharReads(c: Char, rest: Text)
    requires CharOk(c)
    ensures CharText(c) != [] && HeadUnit(CharText(c) + rest) == Some((CharUnit(c), |CharText(c)|))
    ensures (CharText(c) + rest)[|CharText(c)|..] == rest
  {
    hide ReadHex4, HexValue;
    match c {
      case Plain(_) =>
      case Short(_) =>
      case Code(d) =>
        HexRead(d, rest);
        assert (CharText(c) + rest)[2..] == d + rest;
        assert (CharText(c) + rest)[1] == 0x75;
    }
  }

  lemma {:induction false} CharsUnescape(chars: seq<Char>)
    requires CharsOk(chars)
    ensures Unescape(CharsText(chars)) == Some(Units(chars))
  {
    hide CharText, CharUnit, CharOk, HeadUnit;
    if chars != [] {
      CharReads(chars[0], CharsText(chars[1..]));
      CharsUnescape(chars[1..]);
      assert Units(chars) == [CharUnit(chars[0])] + Units(chars[1..]);
    }
  }

  /** The scan for the closing quote steps over a character. */
  lemma ScanChar(t: Text, j: nat, c: Char)
    requires CharOk(c) && j + |CharText(c)| <= |t| && t[j..j + |CharText(c)|] == CharText(c)
    ensures ClosingQuote(t, j) == ClosingQuote(t, j + |CharText(c)|)
  {
    hide HexValue, CharOk;
    var text := CharText(c);
    forall k | 0 <= k < |text|
      ensures t[j + k] == text[k]
    {
      assert t[j..j + |text|][k] == t[j + k];
    }
    CharUnits(c);
    if c.Code? {
      assert t[j + 2] == c.digits[0] && t[j + 3] == c.digits[1] && t[j + 4] == c.digits[2] && t[j + 5] == c.digits[3];
      assert ClosingQuote(t, j) == ClosingQuote(t, j + 2);
      assert ClosingQuote(t, j + 2) == ClosingQuote(t, j + 3);
      assert ClosingQuote(t, j + 3) == ClosingQuote(t, j + 4);
      assert ClosingQuote(t, j + 4) == ClosingQuote(t, j + 5);
    }
  }

  /** Nothing in a character but what follows a backslash could end or break a literal. */
  lemma CharUnits(c: Char)
    requires CharOk(c)
    ensures c.Plain? ==> c.unit >= 0x20 && c.unit != QUOTE && c.unit != BACKSLASH
    ensures c.Code? ==> |c.digits| == 4 && forall i | 0 <= i < 4 :: 0x30 <= c.digits[i] <= 0x66 && c.digits[i] != BACKSLASH
  {
  }

  lemma AtQuote(t: Text, j: nat, rest: Text)
    requires j <= |t| && t[j..] == [QUOTE] + rest
    ensures ClosingQuote(t, j) == Ok(j)
  {
    assert t[j..][0] == t[j];
  }

  /** Where a text goes on after a part of it. */
  lemma GoesOn(t: Text, j: nat, c: Text, more: Text)
    requires j <= |t| && t[j..] == c + more
    ensures j + |c| <= |t| && t[j..j + |c|] == c && t[j + |c|..] == more
  {
    assert t[j..][..|c|] == c && t[j..][|c|..] == more;
  }

  lemma {:induction false} ScanChars(chars: seq<Char>, t: Text, j: nat, rest: Text)
    requires CharsOk(chars) && j <= |t| && t[j..] == CharsText(chars) + ([QUOTE] + rest)
    ensures ClosingQuote(t, j) == Ok(j + |CharsText(chars)|)
    decreases |chars|
  {
    hide CharText, CharOk, ClosingQuote;
    if chars == [] {
      assert CharsText(chars) + ([QUOTE] + rest) == [QUOTE] + rest;
      AtQuote(t, j, rest);
    } else {
      var c, more := CharText(chars[0]), CharsText(chars[1..]);
      Regroup(c, more, [QUOTE] + rest);
      GoesOn(t, j, c, more + ([QUOTE] + rest));
      ScanChar(t, j, chars[0]);
      ScanChars(chars[1..], t, j + |c|, rest);
    }
  }

  lemma Regroup(a: Text, b: Text, c: Text)
    ensures (a + b) + c == a + (b + c)
  {
  }

  /** Every spelling of a string reads back as its units. */
  lemma StringReads(chars: seq<Char>, rest: Text)
    requires CharsOk(chars)
    ensures ReadString(CharsText(chars) + ([0x22] + rest)) == Ok(Literal(Units(chars), rest))
  {
    hide CharsText, Unescape, ClosingQuote, CharsOk;
    var e := CharsText(chars);
    var t := e + ([QUOTE] + rest);
    assert t[0..] == t;
    ScanChars(chars, t, 0, rest);
    CharsUnescape(chars);
    assert t[..|e|] == e && t[|e| + 1..] == rest;
    if BACKSLASH !in e {
      PlainUnescapes(e);
    }
  }

  /** The character at the head of what unescapes. */
  lemma HeadChar(raw: Text) returns (c: Char)
    requires raw != [] && HeadUnit(raw).Some?
    ensures CharOk(c) && |CharText(c)| == HeadUnit(raw).value.1 && CharUnit(c) == HeadUnit(raw).value.0
    ensures raw == CharText(c) + raw[|CharText(c)|..]
  {
    hide ReadHex4, HexValue;
    if raw[0] != BACKSLASH {
      c := Plain(raw[0]);
    } else if |raw| >= 2 && ShortUnescape(raw[1]).Some? {
      c := Short(raw[1]);
    } else {
      c := Code(raw[2..6]);
      HexChars(raw[2..]);
      assert raw[2..][..4] == raw[2..6];
      HexRead(raw[2..6], raw[6..]);
      assert raw[2..6] + raw[6..] == raw[2..];
    }
  }

  lemma HexChars(t: Text)
    requires |t| >= 4 && ReadHex4(t).Some?
    ensures CharOk(Code(t[..4]))
  {
    hide HexValue, DigitValue;
    HexValues(t[0]);
    HexValues(t[1]);
    HexValues(t[2]);
    HexValues(t[3]);
  }

  /** Whatever unescapes is a spelling of what it unescapes to. */
  lemma {:induction false} UnescapeSpells(raw: Text) returns (chars: seq<Char>)
    requires Unescape(raw).Some?
    ensures CharsOk(chars) && CharsText(chars) == raw && Units(chars) == Unescape(raw).value
    decreases |raw|
  {
    hide CharText, CharUnit, CharOk, HeadUnit;
    chars := [];
    if raw != [] {
      var c := HeadChar(raw);
      var n := |CharText(c)|;
      var more := UnescapeSpells(raw[n..]);
      chars := [c] + more;
      assert chars[1..] == more;
      assert Units(chars) == [CharUnit(c)] + Units(more);
    }
  }

  /** Text without a backslash, up to its closing quote, is plain characters. */
  lemma {:induction false} PlainSpells(t: Text, j: nat, n: nat)
    requires ClosingQuote(t, j) == Ok(n) && BACKSLASH !in t[j..n]
    ensures Unescape(t[j..n]) == Some(t[j..n])
    decreases n - j
  {
    if j < n {
      assert t[j..n][0] == t[j];
      assert t[j..n][1..] == t[j + 1..n];
      PlainSpells(t, j + 1, n);
      assert t[j..n] == [t[j]] + t[j + 1..n];
    } else {
      assert t[j..n] == [];
    }
  }

  /** Every literal that reads is a spelling of its text. */
  lemma StringSpells(t: Text) returns (chars: seq<Char>)
    requires ReadString(t).Ok?
    ensures CharsOk(chars) && Units(chars) == ReadString(t).value.text
    ensures t == CharsText(chars) + ([0x22] + ReadString(t).value.rest)
  {
    hide Unescape, ClosingQuote, CharsText, CharsOk;
    var j := ClosingQuote(t, 0).value;
    if BACKSLASH !in t[..j] {
      assert t[0..j] == t[..j];
      PlainSpells(t, 0, j);
    }
    chars := UnescapeSpells(t[..j]);
    assert t == t[..j] + ([t[j]] + t[j + 1..]);
  }
}
