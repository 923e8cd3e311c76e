/** The typed snapshot text used for mutation checks (scripts/core/src/bytes.ts:70-94). */
module Stable {
  import opened Results
  import opened Bytes
  import opened JsonStrings
  import opened Json
  import opened JsonRoundTrip
  import opened TxWire

  /** Plain data: `Num` is an integer number, `NegZero` the number -0, and an object is a map from its keys. */
  datatype Data =
    | Null
    | Undefined
    | BigInt(n: int)
    | Text(text: Text)
    | Flag(b: bool)
    | Num(n: int)
    | NegZero
    | Blob(bytes: Bytes)
    | List(items: seq<Data>)
    | Object(members: map<Text, Data>)

  // ---------------------------------------------------------------- key order

  /** Order by code units. */
  predicate Leq(a: Text, b: Text) {
    a == [] || (b != [] && (a[0] < b[0] || (a[0] == b[0] && Leq(a[1..], b[1..]))))
  }

  lemma {:induction false} LeqOrder(a: Text, b: Text)
    ensures Leq(a, b) || Leq(b, a)
    ensures Leq(a, b) && Leq(b, a) ==> a == b
  {
    if a != [] && b != [] && a[0] == b[0] {
      LeqOrder(a[1..], b[1..]);
      assert a == [a[0]] + a[1..] && b == [b[0]] + b[1..];
    }
  }

  lemma {:induction false} LeqTransitive(a: Text, b: Text, c: Text)
    requires Leq(a, b) && Leq(b, c)
    ensures Leq(a, c)
  {
    if a != [] && b != [] && c != [] && a[0] == b[0] == c[0] {
      LeqTransitive(a[1..], b[1..], c[1..]);
    }
  }

  predicate IsLeast(k: Text, keys: set<Text>) {
    k in keys && forall j | j in keys :: Leq(k, j)
  }

  lemma {:induction false} LeastExists(keys: set<Text>)
    requires keys != {}
    ensures exists k :: IsLeast(k, keys)
    ensures forall a, b | IsLeast(a, keys) && IsLeast(b, keys) :: a == b
    decreases |keys|
  {
    forall a, b | IsLeast(a, keys) && IsLeast(b, keys)
      ensures a == b
    {
      LeqOrder(a, b);
    }
    var x :| x in keys;
    var rest := keys - {x};
    LeqOrder(x, x);
    if rest == {} {
      assert keys == {x};
      assert IsLeast(x, keys);
    } else {
      LeastExists(rest);
      var y :| IsLeast(y, rest);
      LeqOrder(x, y);
      if Leq(x, y) {
        forall j | j in keys
          ensures Leq(x, j)
        {
          if j != x {
            LeqTransitive(x, y, j);
          }
        }
        assert IsLeast(x, keys);
      } else {
        assert IsLeast(y, keys);
      }
    }
  }

  function SortedKeys(keys: set<Text>): (sorted: seq<Text>)
    ensures forall k :: k in sorted <==> k in keys
    decreases |keys|
  {
    if keys == {} then []
    else
      LeastExists(keys);
      var k :| IsLeast(k, keys);
      [k] + SortedKeys(keys - {k})
  }

  // ---------------------------------------------------------------- the snapshot

  const TAG_NULL: Text := Name("null")
  const TAG_UNDEFINED: Text := Name("undefined")
  const TAG_BIGINT: Text := Name("bigint")
  const TAG_STRING: Text := Name("string")
  const TAG_BOOLEAN: Text := Name("boolean")
  const TAG_NUMBER: Text := Name("number")
  const TAG_BYTES: Text := Name("bytes")
  const TAG_ARRAY: Text := Name("array")
  const TAG_OBJECT: Text := Name("object")

  const MINUS_ZERO: Text := [0x2d, 0x30]

  /** The type tag that a snapshot starts with. */
  function TagOf(v: Data): Text {
    match v
    case Null => TAG_NULL
    case Undefined => TAG_UNDEFINED
    case BigInt(_) => TAG_BIGINT
    case Text(_) => TAG_STRING
    case Flag(_) => TAG_BOOLEAN
    case Num(_) => TAG_NUMBER
    case NegZero => TAG_NUMBER
    case Blob(_) => TAG_BYTES
    case List(_) => TAG_ARRAY
    case Object(_) => TAG_OBJECT
  }

  /** What follows the tag. */
  function Body(v: Data): Text
    decreases v, 2, 0
  {
    match v
    case Null => []
    case Undefined => []
    case BigInt(n) => [0x2c] + Quoted(Decimal(n))
    case Text(t) => [0x2c] + Quoted(t)
    case Flag(b) => [0x2c] + if b then TRUE else FALSE
    case Num(n) => [0x2c] + Decimal(n)
    case NegZero => [0x2c] + Quoted(MINUS_ZERO)
    case Blob(b) => [0x2c] + Quoted(HexText(b))
    case List(items) => [0x2c, 0x5b] + (ItemsSnapshot(items) + [0x5d])
    case Object(members) => [0x2c, 0x5b] + (MembersSnapshot(v, SortedKeys(members.Keys)) + [0x5d])
  }

  function Snapshot(v: Data): Text
    decreases v, 3, 0
  {
    [0x5b] + (Quoted(TagOf(v)) + (Body(v) + [0x5d]))
  }

  /** Comma-separated items. */
  function ItemsSnapshot(items: seq<Data>): Text
    decreases items, 0, 0
  {
    if items == [] then []
    else if |items| == 1 then Snapshot(items[0])
    else Snapshot(items[0]) + ([0x2c] + ItemsSnapshot(items[1..]))
  }

  function MemberSnapshot(v: Data, key: Text): Text
    requires v.Object? && key in v.members
    decreases v, 0, 0
  {
    [0x5b] + (Quoted(key) + ([0x2c] + (Snapshot(v.members[key]) + [0x5d])))
  }

  function MembersSnapshot(v: Data, keys: seq<Text>): Text
    requires v.Object? && forall k | k in keys :: k in v.members
    decreases v, 1, |keys|
  {
    if keys == [] then []
    else if |keys| == 1 then MemberSnapshot(v, keys[0])
    else MemberSnapshot(v, keys[0]) + ([0x2c] + MembersSnapshot(v, keys[1..]))
  }

  /** Numbers in the safe range, at every level. */
  predicate Plain(v: Data) {
    match v
    case Num(n) => -SAFE <= n <= SAFE
    case List(items) => forall i | 0 <= i < |items| :: Plain(items[i])
    case Object(members) => forall k | k in members :: Plain(members[k])
    case _ => true
  }

  // ---------------------------------------------------------------- injectivity

  lemma Next(c: Unit, a: Text, b: Text)
    requires [c] + a == [c] + b
    ensures a == b
  {
    assert ([c] + a)[1..] == a && ([c] + b)[1..] == b;
  }

  lemma Assoc(a: Text, b: Text, c: Text)
    ensures (a + b) + c == a + (b + c)
  {
  }

  lemma SnapshotSplit(v: Data, r: Text)
    ensures Snapshot(v) + r == [0x5b] + (Quoted(TagOf(v)) + (Body(v) + ([0x5d] + r)))
  {
    hide Body, TagOf, Quoted;
    Assoc([0x5b], Quoted(TagOf(v)) + (Body(v) + [0x5d]), r);
    Assoc(Quoted(TagOf(v)), Body(v) + [0x5d], r);
    Assoc(Body(v), [0x5d], r);
  }

  lemma TagsDistinct(a: Data, b: Data)
    requires TagOf(a) == TagOf(b)
    ensures a.Null? == b.Null? && a.Undefined? == b.Undefined? && a.BigInt? == b.BigInt? && a.Text? == b.Text?
    ensures a.Flag? == b.Flag? && (a.Num? || a.NegZero?) == (b.Num? || b.NegZero?) && a.Blob? == b.Blob?
    ensures a.List? == b.List? && a.Object? == b.Object?
  {
    assert |TAG_NULL| == 4 && |TAG_UNDEFINED| == 9 && |TAG_BIGINT| == 6 && TAG_BIGINT[0] == 0x62;
    assert |TAG_STRING| == 6 && TAG_STRING[0] == 0x73 && |TAG_BOOLEAN| == 7 && |TAG_NUMBER| == 6 && TAG_NUMBER[0] == 0x6e;
    assert |TAG_BYTES| == 5 && TAG_BYTES[0] == 0x62 && |TAG_ARRAY| == 5 && TAG_ARRAY[0] == 0x61;
    assert |TAG_OBJECT| == 6 && TAG_OBJECT[0] == 0x6f;
  }

  lemma DecimalInjective(m: int, n: int)
    requires Decimal(m) == Decimal(n)
    ensures m == n
  {
    hide DecimalDigits, DigitsValue;
    var a, b := Decimal(m), Decimal(n);
    DigitsRead(if m < 0 then -m else m);
    DigitsRead(if n < 0 then -n else n);
    assert m >= 0 ==> IsDigit(a[0]);
    assert n >= 0 ==> IsDigit(b[0]);
    assert m < 0 ==> a[1..] == DecimalDigits(-m);
    assert n < 0 ==> b[1..] == DecimalDigits(-n);
  }

  lemma NumberPrefix(m: int, n: int, ra: Text, rb: Text)
    requires -SAFE <= m <= SAFE && -SAFE <= n <= SAFE
    requires Decimal(m) + ([0x5d] + ra) == Decimal(n) + ([0x5d] + rb)
    ensures m == n && ra == rb
  {
    hide Decimal, ReadNumber;
    ShortNumber(m);
    ShortNumber(n);
    NumberReads(m, [0x5d] + ra);
    NumberReads(n, [0x5d] + rb);
    Next(0x5d, ra, rb);
  }

  lemma HexInjective(a: Bytes, b: Bytes)
    requires HexText(a) == HexText(b)
    ensures a == b
  {
    HexReads(a);
    HexReads(b);
  }

  /** Scalars of one type are a prefix code before a closing bracket. */
  lemma ScalarPrefix(a: Data, b: Data, ra: Text, rb: Text)
    requires Plain(a) && Plain(b) && TagOf(a) == TagOf(b) && !a.List? && !a.Object?
    requires Body(a) + ([0x5d] + ra) == Body(b) + ([0x5d] + rb)
    ensures a == b && ra == rb
  {
    hide Quoted, Decimal, HexText;
    TagsDistinct(a, b);
    match a
    case Null =>
      assert Body(a) + ([0x5d] + ra) == [0x5d] + ra && Body(b) + ([0x5d] + rb) == [0x5d] + rb;
      Next(0x5d, ra, rb);
    case Undefined =>
      assert Body(a) + ([0x5d] + ra) == [0x5d] + ra && Body(b) + ([0x5d] + rb) == [0x5d] + rb;
      Next(0x5d, ra, rb);
    case BigInt(n) =>
      QuotedBody(Decimal(n), Decimal(b.n), ra, rb);
      DecimalInjective(n, b.n);
    case Text(t) =>
      QuotedBody(t, b.text, ra, rb);
    case Flag(x) =>
      FlagPrefix(x, b.b, ra, rb);
    case Blob(x) =>
      QuotedBody(HexText(x), HexText(b.bytes), ra, rb);
      HexInjective(x, b.bytes);
    case Num(_) => NumbersPrefix(a, b, ra, rb);
    case NegZero => NumbersPrefix(a, b, ra, rb);
  }

  lemma QuotedBody(s: Text, t: Text, ra: Text, rb: Text)
    requires ([0x2c] + Quoted(s)) + ([0x5d] + ra) == ([0x2c] + Quoted(t)) + ([0x5d] + rb)
    ensures s == t && ra == rb
  {
    hide Quoted;
    Assoc([0x2c], Quoted(s), [0x5d] + ra);
    Assoc([0x2c], Quoted(t), [0x5d] + rb);
    Next(0x2c, Quoted(s) + ([0x5d] + ra), Quoted(t) + ([0x5d] + rb));
    QuotedPrefixFree(s, [0x5d] + ra, t, [0x5d] + rb);
    Next(0x5d, ra, rb);
  }

  lemma FlagPrefix(x: bool, y: bool, ra: Text, rb: Text)
    requires ([0x2c] + if x then TRUE else FALSE) + ([0x5d] + ra) == ([0x2c] + if y then TRUE else FALSE) + ([0x5d] + rb)
    ensures x == y && ra == rb
  {
    var a, b := ([0x2c] + if x then TRUE else FALSE) + ([0x5d] + ra), ([0x2c] + if y then TRUE else FALSE) + ([0x5d] + rb);
    assert a[1] == if x then 0x74 else 0x66;
    assert b[1] == if y then 0x74 else 0x66;
    assert a[(if x then 6 else 7)..] == ra && b[(if y then 6 else 7)..] == rb;
  }

  lemma NumbersPrefix(a: Data, b: Data, ra: Text, rb: Text)
    requires Plain(a) && Plain(b) && (a.Num? || a.NegZero?) && (b.Num? || b.NegZero?)
    requires Body(a) + ([0x5d] + ra) == Body(b) + ([0x5d] + rb)
    ensures a == b && ra == rb
  {
    hide Decimal, EscapedFrom;
    NumberBodyHead(a, ra);
    NumberBodyHead(b, rb);
    if a.Num? && b.Num? {
      Assoc([0x2c], Decimal(a.n), [0x5d] + ra);
      Assoc([0x2c], Decimal(b.n), [0x5d] + rb);
      Next(0x2c, Decimal(a.n) + ([0x5d] + ra), Decimal(b.n) + ([0x5d] + rb));
      NumberPrefix(a.n, b.n, ra, rb);
    } else if a.NegZero? && b.NegZero? {
      QuotedBody(MINUS_ZERO, MINUS_ZERO, ra, rb);
    }
  }

  lemma NumberBodyHead(a: Data, r: Text)
    requires a.Num? || a.NegZero?
    ensures |Body(a)| > 1
    ensures (Body(a) + ([0x5d] + r))[1] == 0x22 <==> a.NegZero?
  {
    if a.Num? {
      DigitsRead(if a.n < 0 then -a.n else a.n);
    }
  }

  /** Snapshots are a prefix code. */
  lemma {:induction false} SnapshotPrefix(a: Data, b: Data, ra: Text, rb: Text)
    requires Plain(a) && Plain(b) && Snapshot(a) + ra == Snapshot(b) + rb
    ensures a == b && ra == rb
    decreases a, 2, 0
  {
    hide Quoted, Snapshot, Body, Plain, TagOf;
    SnapshotSplit(a, ra);
    SnapshotSplit(b, rb);
    Next(0x5b, Quoted(TagOf(a)) + (Body(a) + ([0x5d] + ra)), Quoted(TagOf(b)) + (Body(b) + ([0x5d] + rb)));
    QuotedPrefixFree(TagOf(a), Body(a) + ([0x5d] + ra), TagOf(b), Body(b) + ([0x5d] + rb));
    TagsDistinct(a, b);
    match a
    case List(items) => ListPrefix(a, b, ra, rb);
    case Object(members) => ObjectPrefix(a, b, ra, rb);
    case _ => ScalarPrefix(a, b, ra, rb);
  }

  lemma ListBody(items: seq<Data>, r: Text)
    ensures Body(List(items)) + r == [0x2c] + ([0x5b] + (ItemsSnapshot(items) + ([0x5d] + r)))
  {
    hide ItemsSnapshot;
    var s := ItemsSnapshot(items);
    assert [0x2c, 0x5b] + (s + [0x5d]) + r == [0x2c] + ([0x5b] + (s + ([0x5d] + r)));
  }

  lemma {:induction false} ListPrefix(a: Data, b: Data, ra: Text, rb: Text)
    requires Plain(a) && Plain(b) && a.List? && b.List? && Body(a) + ([0x5d] + ra) == Body(b) + ([0x5d] + rb)
    ensures a == b && ra == rb
    decreases a, 1, 0
  {
    hide Body, ItemsSnapshot;
    var sa, sb := [0x5d] + ra, [0x5d] + rb;
    ListBody(a.items, sa);
    ListBody(b.items, sb);
    Next(0x2c, [0x5b] + (ItemsSnapshot(a.items) + ([0x5d] + sa)), [0x5b] + (ItemsSnapshot(b.items) + ([0x5d] + sb)));
    Next(0x5b, ItemsSnapshot(a.items) + ([0x5d] + sa), ItemsSnapshot(b.items) + ([0x5d] + sb));
    ItemsPrefix(a.items, b.items, sa, sb);
    Next(0x5d, ra, rb);
  }

  lemma SnapshotHead(v: Data, r: Text)
    ensures Snapshot(v) != [] && (Snapshot(v) + r)[0] == 0x5b
  {
    hide Body, TagOf, Quoted;
  }

  /** The text of items and their closing bracket, one item at a time. */
  function AfterItem(items: seq<Data>, r: Text): Text
    requires items != []
  {
    if |items| == 1 then [0x5d] + r else [0x2c] + (ItemsSnapshot(items[1..]) + ([0x5d] + r))
  }

  lemma ItemsSplit(items: seq<Data>, r: Text)
    requires items != []
    ensures ItemsSnapshot(items) + ([0x5d] + r) == Snapshot(items[0]) + AfterItem(items, r)
  {
    hide Snapshot;
    if |items| > 1 {
      Assoc(Snapshot(items[0]), [0x2c] + ItemsSnapshot(items[1..]), [0x5d] + r);
      Assoc([0x2c], ItemsSnapshot(items[1..]), [0x5d] + r);
    }
  }

  lemma {:induction false} ItemsPrefix(a: seq<Data>, b: seq<Data>, ra: Text, rb: Text)
    requires (forall i | 0 <= i < |a| :: Plain(a[i])) && (forall i | 0 <= i < |b| :: Plain(b[i]))
    requires ItemsSnapshot(a) + ([0x5d] + ra) == ItemsSnapshot(b) + ([0x5d] + rb)
    ensures a == b && ra == rb
    decreases a, 0, |a|
  {
    hide Snapshot, ItemsSnapshot, Plain;
    ItemsHead(a, ra);
    ItemsHead(b, rb);
    if a == [] || b == [] {
      Next(0x5d, ra, rb);
    } else {
      ItemsSplit(a, ra);
      ItemsSplit(b, rb);
      SnapshotPrefix(a[0], b[0], AfterItem(a, ra), AfterItem(b, rb));
      if |a| == 1 || |b| == 1 {
        Next(0x5d, ra, rb);
        assert a == [a[0]] && b == [b[0]];
      } else {
        Next(0x2c, ItemsSnapshot(a[1..]) + ([0x5d] + ra), ItemsSnapshot(b[1..]) + ([0x5d] + rb));
        ItemsPrefix(a[1..], b[1..], ra, rb);
        assert a == [a[0]] + a[1..] && b == [b[0]] + b[1..];
      }
    }
  }

  /** Items start with an opening bracket, their absence with the closing one. */
  lemma ItemsHead(items: seq<Data>, r: Text)
    ensures var t := ItemsSnapshot(items) + ([0x5d] + r);
            && t[0] == (if items == [] then 0x5d else 0x5b)
            && (items == [] ==> t == [0x5d] + r)
  {
    hide Snapshot;
    if items == [] {
      assert ItemsSnapshot(items) + ([0x5d] + r) == [0x5d] + r;
    } else {
      ItemsSplit(items, r);
      SnapshotHead(items[0], AfterItem(items, r));
    }
  }

  // Objects

  lemma ObjectBody(v: Data, r: Text)
    requires v.Object?
    ensures Body(v) + r == [0x2c] + ([0x5b] + (MembersSnapshot(v, SortedKeys(v.members.Keys)) + ([0x5d] + r)))
  {
    hide MembersSnapshot;
    var s := MembersSnapshot(v, SortedKeys(v.members.Keys));
    assert [0x2c, 0x5b] + (s + [0x5d]) + r == [0x2c] + ([0x5b] + (s + ([0x5d] + r)));
  }

  lemma {:induction false} ObjectPrefix(a: Data, b: Data, ra: Text, rb: Text)
    requires Plain(a) && Plain(b) && a.Object? && b.Object? && Body(a) + ([0x5d] + ra) == Body(b) + ([0x5d] + rb)
    ensures a == b && ra == rb
    decreases a, 1, 0
  {
    hide Body, MembersSnapshot, SortedKeys, Plain;
    var sa, sb := [0x5d] + ra, [0x5d] + rb;
    var ka, kb := SortedKeys(a.members.Keys), SortedKeys(b.members.Keys);
    ObjectBody(a, sa);
    ObjectBody(b, sb);
    Next(0x2c, [0x5b] + (MembersSnapshot(a, ka) + ([0x5d] + sa)), [0x5b] + (MembersSnapshot(b, kb) + ([0x5d] + sb)));
    Next(0x5b, MembersSnapshot(a, ka) + ([0x5d] + sa), MembersSnapshot(b, kb) + ([0x5d] + sb));
    MembersPrefix(a, ka, b, kb, sa, sb);
    Next(0x5d, ra, rb);
    SameMembers(a.members, b.members, ka);
  }

  lemma SameMembers(m: map<Text, Data>, n: map<Text, Data>, keys: seq<Text>)
    requires keys == SortedKeys(m.Keys) == SortedKeys(n.Keys)
    requires forall k | k in keys :: k in m && k in n && m[k] == n[k]
    ensures m == n
  {
    hide Leq;
    assert forall k :: k in m.Keys <==> k in keys;
    assert forall k :: k in n.Keys <==> k in keys;
    assert m.Keys == n.Keys;
  }

  function AfterMember(v: Data, keys: seq<Text>, r: Text): Text
    requires v.Object? && keys != [] && forall k | k in keys :: k in v.members
  {
    if |keys| == 1 then [0x5d] + r else [0x2c] + (MembersSnapshot(v, keys[1..]) + ([0x5d] + r))
  }

  lemma MembersSplit(v: Data, keys: seq<Text>, r: Text)
    requires v.Object? && keys != [] && forall k | k in keys :: k in v.members
    ensures MembersSnapshot(v, keys) + ([0x5d] + r)
         == [0x5b] + (Quoted(keys[0]) + ([0x2c] + (Snapshot(v.members[keys[0]]) + ([0x5d] + AfterMember(v, keys, r)))))
  {
    hide Snapshot, Quoted;
    var m, s := MemberSnapshot(v, keys[0]), Snapshot(v.members[keys[0]]);
    var after := AfterMember(v, keys, r);
    if |keys| > 1 {
      Assoc(m, [0x2c] + MembersSnapshot(v, keys[1..]), [0x5d] + r);
      Assoc([0x2c], MembersSnapshot(v, keys[1..]), [0x5d] + r);
    }
    assert MembersSnapshot(v, keys) + ([0x5d] + r) == m + after;
    Assoc([0x5b], Quoted(keys[0]) + ([0x2c] + (s + [0x5d])), after);
    Assoc(Quoted(keys[0]), [0x2c] + (s + [0x5d]), after);
    Assoc([0x2c], s + [0x5d], after);
    Assoc(s, [0x5d], after);
  }

  lemma {:induction false} MembersPrefix(a: Data, ka: seq<Text>, b: Data, kb: seq<Text>, ra: Text, rb: Text)
    requires Plain(a) && Plain(b) && a.Object? && b.Object?
    requires (forall k | k in ka :: k in a.members) && (forall k | k in kb :: k in b.members)
    requires MembersSnapshot(a, ka) + ([0x5d] + ra) == MembersSnapshot(b, kb) + ([0x5d] + rb)
    ensures ka == kb && ra == rb
    ensures forall k | k in ka :: a.members[k] == b.members[k]
    decreases a, 0, |ka|
  {
    hide Snapshot, MembersSnapshot, Quoted;
    MembersHead(a, ka, ra);
    MembersHead(b, kb, rb);
    if ka == [] || kb == [] {
      Next(0x5d, ra, rb);
    } else {
      var fa, fb := AfterMember(a, ka, ra), AfterMember(b, kb, rb);
      FirstMember(a, ka, b, kb, ra, rb, fa, fb);
      SnapshotPrefix(a.members[ka[0]], b.members[kb[0]], [0x5d] + fa, [0x5d] + fb);
      Next(0x5d, fa, fb);
      assert fa[0] == fb[0];
      if |ka| == 1 || |kb| == 1 {
        Next(0x5d, ra, rb);
        assert ka == [ka[0]] && kb == [kb[0]];
      } else {
        Next(0x2c, MembersSnapshot(a, ka[1..]) + ([0x5d] + ra), MembersSnapshot(b, kb[1..]) + ([0x5d] + rb));
        MembersPrefix(a, ka[1..], b, kb[1..], ra, rb);
        assert ka == [ka[0]] + ka[1..] && kb == [kb[0]] + kb[1..];
      }
    }
  }

  lemma FirstMember(a: Data, ka: seq<Text>, b: Data, kb: seq<Text>, ra: Text, rb: Text, fa: Text, fb: Text)
    requires a.Object? && b.Object? && ka != [] && kb != []
    requires (forall k | k in ka :: k in a.members) && (forall k | k in kb :: k in b.members)
    requires fa == AfterMember(a, ka, ra) && fb == AfterMember(b, kb, rb)
    requires MembersSnapshot(a, ka) + ([0x5d] + ra) == MembersSnapshot(b, kb) + ([0x5d] + rb)
    ensures ka[0] == kb[0]
    ensures Snapshot(a.members[ka[0]]) + ([0x5d] + fa) == Snapshot(b.members[kb[0]]) + ([0x5d] + fb)
  {
    hide Snapshot, MembersSnapshot, Quoted, AfterMember;
    MembersSplit(a, ka, ra);
    MembersSplit(b, kb, rb);
    var ta, tb := Snapshot(a.members[ka[0]]) + ([0x5d] + fa), Snapshot(b.members[kb[0]]) + ([0x5d] + fb);
    Next(0x5b, Quoted(ka[0]) + ([0x2c] + ta), Quoted(kb[0]) + ([0x2c] + tb));
    QuotedPrefixFree(ka[0], [0x2c] + ta, kb[0], [0x2c] + tb);
    Next(0x2c, ta, tb);
  }

  lemma MembersHead(v: Data, keys: seq<Text>, r: Text)
    requires v.Object? && forall k | k in keys :: k in v.members
    ensures var t := MembersSnapshot(v, keys) + ([0x5d] + r);
            && t[0] == (if keys == [] then 0x5d else 0x5b)
            && (keys == [] ==> t == [0x5d] + r)
  {
    hide Snapshot, Quoted;
    if keys == [] {
      assert MembersSnapshot(v, keys) + ([0x5d] + r) == [0x5d] + r;
    } else {
      MembersSplit(v, keys, r);
    }
  }

  /** Two values have one snapshot exactly when they are equal, object members being unordered. */
  lemma SnapshotIsFaithful(a: Data, b: Data)
    requires Plain(a) && Plain(b)
    ensures Snapshot(a) == Snapshot(b) <==> a == b
  {
    hide Snapshot;
    if Snapshot(a) == Snapshot(b) {
      SnapshotPrefix(a, b, [], []);
    }
  }
}
