/** The RPC form of a transaction, member by member under its names: which values are read, and as what
    (scripts/chain/nodes.mjs:385-407, scripts/chain/json.mjs:116-121). */
module WireLayout {
  import opened Results
  import opened Bytes
  import opened Scripts
  import opened Tx
  import opened JsonStrings
  import opened Json
  import opened JsonRoundTrip
  import opened JsonGrammar
  import opened TxWire

  // ---------------------------------------------------------------- members

  /** The member of a name, null where there is none. */
  function Named(v: Value, key: Text): Value
    requires v.Obj?
  {
    if Get(v.members, key).Some? then Get(v.members, key).value else Null
  }

  /** It is the first of that name. */
  lemma {:induction false} NamedIsFirst(members: seq<Member>, key: Text)
    ensures var v := Named(Obj(members), key);
            || (v == Null && forall j | 0 <= j < |members| :: members[j].key != key)
            || (exists i | 0 <= i < |members| ::
                  members[i] == Member(key, v) && forall j | 0 <= j < i :: members[j].key != key)
  {
    if members != [] && members[0].key != key {
      NamedIsFirst(members[1..], key);
      var v := Named(Obj(members[1..]), key);
      if i :| 0 <= i < |members[1..]| && members[1..][i] == Member(key, v) && forall j | 0 <= j < i :: members[1..][j].key != key {
        assert members[i + 1] == Member(key, v);
        assert forall j | 0 < j < i + 1 :: members[j].key == members[1..][j - 1].key;
      } else {
        assert forall j | 0 < j < |members| :: members[j].key == members[1..][j - 1].key;
      }
    } else if members != [] {
      assert members[0] == Member(key, members[0].value);
    }
  }

  lemma FieldIs(v: Value, key: Text)
    ensures Field(v, key).Ok? <==> v.Obj?
    ensures v.Obj? ==> Field(v, key).value == Named(v, key)
  {
  }

  // ---------------------------------------------------------------- values

  /** A non-negative integer: as a number, or in at most 25 decimal digits without a leading zero. */
  predicate UintIs(x: Value, n: int) {
    n >= 0 && (x == Num(n) || x == Big(n) || (x.Str? && x.text == DecimalDigits(n) && |x.text| <= 25))
  }

  lemma {:induction false} NotZero(t: Text)
    requires t != [] && t[0] != 0x30 && forall k | 0 <= k < |t| :: IsDigit(t[k])
    ensures DigitsValue(t) > 0
  {
    if |t| > 1 {
      NotZero(t[..|t| - 1]);
    } else {
      assert t[..0] == [];
    }
  }

  /** Digits without a leading zero are the digits of their value. */
  lemma {:induction false} DigitsWritten(t: Text)
    requires t != [] && (forall k | 0 <= k < |t| :: IsDigit(t[k])) && (t[0] != 0x30 || |t| == 1)
    ensures DecimalDigits(DigitsValue(t)) == t
  {
    var n := |t| - 1;
    assert t == t[..n] + [t[n]];
    if n == 0 {
      assert t[..0] == [];
    } else {
      NotZero(t[..n]);
      DigitsWritten(t[..n]);
      LastDigit(t);
    }
  }

  lemma LastDigit(t: Text)
    requires |t| > 1 && (forall k | 0 <= k < |t| :: IsDigit(t[k])) && DigitsValue(t[..|t| - 1]) > 0
    ensures DigitsValue(t) >= 10 && DigitsValue(t) / 10 == DigitsValue(t[..|t| - 1])
    ensures 0x30 + DigitsValue(t) % 10 == t[|t| - 1]
  {
  }

  lemma {:induction false} LeadingDigit(n: nat)
    ensures DecimalDigits(n)[0] == 0x30 ==> n == 0
    ensures n == 0 ==> DecimalDigits(n) == [0x30]
  {
    if n >= 10 {
      LeadingDigit(n / 10);
    }
  }

  lemma UintExactly(x: Value, n: int)
    ensures UintOf(x) == Ok(n) <==> UintIs(x, n)
  {
    hide DecimalDigits, DigitsValue;
    match x {
      case Str(t) =>
        if UintOf(x) == Ok(n) {
          DigitsWritten(t);
        }
        if UintIs(x, n) {
          DigitsRead(n);
          LeadingDigit(n);
        }
      case _ =>
    }
  }

  /** Bytes in hexadecimal of either case, high digit first. */
  predicate HexIs(t: Text, b: Bytes) {
    |t| == 2 * |b| && forall i | 0 <= i < |b| :: HexValue(t[2 * i]) == Some(b[i] / 16) && HexValue(t[2 * i + 1]) == Some(b[i] % 16)
  }

  lemma {:induction false} HexExactly(t: Text, b: Bytes)
    ensures ReadHexText(t) == Some(b) <==> HexIs(t, b)
  {
    hide DigitValue, HexValue;
    if |t| < 2 {
    } else if b == [] {
    } else {
      HexValues(t[0]);
      HexValues(t[1]);
      HexExactly(t[2..], b[1..]);
      HexTail(t, b);
      if ReadHexText(t) == Some(b) {
        assert b[1..] == ReadHexText(t[2..]).value;
        DigitPair(DigitValue(t[0]).value, DigitValue(t[1]).value);
      }
      if HexIs(t, b) {
        assert HexValue(t[2 * 0]) == Some(b[0] / 16) && HexValue(t[2 * 0 + 1]) == Some(b[0] % 16);
        assert b == [b[0]] + b[1..];
      }
    }
  }

  lemma DigitPair(a: nat, b: nat)
    requires a < 16 && b < 16
    ensures (a * 16 + b) / 16 == a && (a * 16 + b) % 16 == b
  {
  }

  lemma HexTail(t: Text, b: Bytes)
    requires |t| >= 2 && b != []
    ensures HexIs(t, b) <==> HexValue(t[0]) == Some(b[0] / 16) && HexValue(t[1]) == Some(b[0] % 16) && HexIs(t[2..], b[1..])
  {
    hide HexValue;
    if HexIs(t[2..], b[1..]) && HexValue(t[0]) == Some(b[0] / 16) && HexValue(t[1]) == Some(b[0] % 16) {
      forall i | 0 <= i < |b|
        ensures HexValue(t[2 * i]) == Some(b[i] / 16) && HexValue(t[2 * i + 1]) == Some(b[i] % 16)
      {
        assert i > 0 ==> HexValue(t[2..][2 * (i - 1)]) == Some(b[1..][i - 1] / 16)
                         && HexValue(t[2..][2 * (i - 1) + 1]) == Some(b[1..][i - 1] % 16);
      }
    }
    if HexIs(t, b) {
      assert HexValue(t[2 * 0]) == Some(b[0] / 16) && HexValue(t[2 * 0 + 1]) == Some(b[0] % 16);
      forall i | 0 <= i < |b| - 1
        ensures HexValue(t[2..][2 * i]) == Some(b[1..][i] / 16) && HexValue(t[2..][2 * i + 1]) == Some(b[1..][i] % 16)
      {
        assert HexValue(t[2 * (i + 1)]) == Some(b[i + 1] / 16) && HexValue(t[2 * (i + 1) + 1]) == Some(b[i + 1] % 16);
      }
    }
  }

  predicate BytesAre(x: Value, b: Bytes) {
    x.Str? && HexIs(x.text, b)
  }

  /** A hash: 32 bytes in lower-case hexadecimal. */
  predicate HashIs(x: Value, b: Bytes) {
    BytesAre(x, b) && |b| == 32 && forall i | 0 <= i < |x.text| :: !(0x41 <= x.text[i] <= 0x46)
  }

  lemma BytesExactly(x: Value, b: Bytes)
    ensures HexOf(x) == Ok(b) <==> BytesAre(x, b)
    ensures HashOf(x) == Ok(b) <==> HashIs(x, b)
  {
    hide ReadHexText;
    match x {
      case Str(t) =>
        HexExactly(t, b);
        if HexIs(t, b) {
          HexLower(t, b);
        }
      case _ =>
    }
  }

  lemma HexLower(t: Text, b: Bytes)
    requires HexIs(t, b)
    ensures LowerHex(t) <==> forall i | 0 <= i < |t| :: !(0x41 <= t[i] <= 0x46)
  {
    forall i | 0 <= i < |t|
      ensures HexValue(t[i]).Some?
    {
      assert HexValue(t[2 * (i / 2)]) == Some(b[i / 2] / 16) && HexValue(t[2 * (i / 2) + 1]) == Some(b[i / 2] % 16);
    }
  }

  /** A script public key: four digits of version, then the script. */
  predicate SpkIs(x: Value, spk: Spk) {
    && x.Str? && |x.text| >= 4 && 0 <= spk.version < 0x1_0000
    && HexIs(x.text[..4], [spk.version / 256, spk.version % 256]) && HexIs(x.text[4..], spk.script)
  }

  lemma SpkExactly(x: Value, spk: Spk)
    ensures SpkOf(x) == Ok(spk) <==> SpkIs(x, spk)
  {
    hide ReadHexText, ReadHex4;
    match x {
      case Str(t) =>
        if |t| >= 4 {
          HexExactly(t[4..], spk.script);
          VersionExactly(t, spk.version);
        }
      case _ =>
    }
  }

  lemma VersionExactly(t: Text, version: int)
    requires |t| >= 4
    ensures ReadHex4(t).Some? && ReadHex4(t).value == version
       <==> 0 <= version < 0x1_0000 && HexIs(t[..4], [version / 256, version % 256])
  {
    hide HexValue, DigitValue;
    HexValues(t[0]);
    HexValues(t[1]);
    HexValues(t[2]);
    HexValues(t[3]);
    if ReadHex4(t).Some? && ReadHex4(t).value == version {
      FourDigits(DigitValue(t[0]).value, DigitValue(t[1]).value, DigitValue(t[2]).value, DigitValue(t[3]).value);
    }
    if 0 <= version < 0x1_0000 && HexIs(t[..4], [version / 256, version % 256]) {
      var b: Bytes := [version / 256, version % 256];
      assert HexValue(t[..4][2 * 0]) == Some(b[0] / 16) && HexValue(t[..4][2 * 0 + 1]) == Some(b[0] % 16);
      assert HexValue(t[..4][2 * 1]) == Some(b[1] / 16) && HexValue(t[..4][2 * 1 + 1]) == Some(b[1] % 16);
      FourParts(version);
    }
  }

  lemma FourDigits(a: nat, b: nat, c: nat, d: nat)
    requires a < 16 && b < 16 && c < 16 && d < 16
    ensures var n := a * 0x1000 + b * 0x100 + c * 16 + d;
            n < 0x1_0000 && n / 256 / 16 == a && n / 256 % 16 == b && n % 256 / 16 == c && n % 256 % 16 == d
  {
    var n := a * 0x1000 + b * 0x100 + c * 16 + d;
    assert n == 256 * (a * 16 + b) + (c * 16 + d);
    DigitPair(a, b);
    DigitPair(c, d);
  }

  lemma FourParts(n: nat)
    requires n < 0x1_0000
    ensures n / 256 / 16 * 0x1000 + n / 256 % 16 * 0x100 + n % 256 / 16 * 16 + n % 256 % 16 == n
  {
    Split(n / 256);
    Split(n % 256);
  }

  // ---------------------------------------------------------------- structures

  predicate OutpointIs(v: Value, o: Outpoint) {
    v.Obj? && HashIs(Named(v, Name("transactionId")), o.transactionId) && UintIs(Named(v, Name("index")), o.index)
  }

  /** An integer, zero where it is null. */
  predicate UintOrNone(x: Value, n: int) {
    if x == Null then n == 0 else UintIs(x, n)
  }

  predicate InputIs(v: Value, i: Input) {
    && v.Obj? && OutpointIs(Named(v, Name("previousOutpoint")), i.previousOutpoint)
    && BytesAre(Named(v, Name("signatureScript")), i.signatureScript)
    && UintIs(Named(v, Name("sequence")), i.sequence)
    && i.computeBudget.Some? && UintOrNone(Named(v, Name("computeBudget")), i.computeBudget.value) && i.sigOpCount == None
  }

  predicate CovenantIs(v: Value, c: Option<Binding>) {
    if v == Null then c == None
    else
      && v.Obj? && c.Some? && HashIs(Named(v, Name("covenantId")), c.value.covenantId)
      && UintIs(Named(v, Name("authorizingInput")), c.value.authorizingInput)
  }

  predicate OutputIs(v: Value, o: Output) {
    && v.Obj? && UintIs(Named(v, Name("value")), o.value) && SpkIs(Named(v, Name("scriptPublicKey")), o.scriptPublicKey)
    && CovenantIs(Named(v, Name("covenant")), o.covenant)
  }

  predicate InputsAre(v: Value, inputs: seq<Input>) {
    v.Arr? && |v.items| == |inputs| && forall k | 0 <= k < |inputs| :: InputIs(v.items[k], inputs[k])
  }

  predicate OutputsAre(v: Value, outputs: seq<Output>) {
    v.Arr? && |v.items| == |outputs| && forall k | 0 <= k < |outputs| :: OutputIs(v.items[k], outputs[k])
  }

  /** A transaction under the names of its members; no payload is an empty one, and `mass` stands in for a missing
      `storageMass`. */
  predicate TxIs(v: Value, t: Transaction) {
    && v.Obj? && Named(v, Name("version")) == Num(t.version)
    && InputsAre(Named(v, Name("inputs")), t.inputs) && OutputsAre(Named(v, Name("outputs")), t.outputs)
    && UintIs(Named(v, Name("lockTime")), t.lockTime) && BytesAre(Named(v, Name("subnetworkId")), t.subnetworkId)
    && UintIs(Named(v, Name("gas")), t.gas)
    && (if Named(v, Name("payload")) == Null then t.payload == [] else BytesAre(Named(v, Name("payload")), t.payload))
    && UintOrNone(if Named(v, Name("storageMass")) == Null then Named(v, Name("mass")) else Named(v, Name("storageMass")),
                  t.storageMass)
  }

  lemma OptionalExactly(x: Value, n: int)
    ensures UintOf(OrZero(x)) == Ok(n) <==> UintOrNone(x, n)
  {
    UintExactly(x, n);
  }

  lemma InputExactly(v: Value, i: Input)
    ensures InputFromRpc(v) == Ok(i) <==> InputIs(v, i)
  {
    hide UintIs, UintOf, HashIs, HashOf, HexOf, BytesAre, Get, UintOrNone, OrZero, Named, Field;
    FieldIs(v, Name("previousOutpoint"));
    FieldIs(v, Name("signatureScript"));
    FieldIs(v, Name("sequence"));
    FieldIs(v, Name("computeBudget"));
    if v.Obj? {
      var o := Named(v, Name("previousOutpoint"));
      FieldIs(o, Name("transactionId"));
      FieldIs(o, Name("index"));
      if o.Obj? {
        BytesExactly(Named(o, Name("transactionId")), i.previousOutpoint.transactionId);
        UintExactly(Named(o, Name("index")), i.previousOutpoint.index);
      }
      BytesExactly(Named(v, Name("signatureScript")), i.signatureScript);
      UintExactly(Named(v, Name("sequence")), i.sequence);
      if i.computeBudget.Some? {
        OptionalExactly(Named(v, Name("computeBudget")), i.computeBudget.value);
      }
    }
  }

  lemma CovenantExactly(v: Value, c: Option<Binding>)
    ensures CovenantFromRpc(v) == Ok(c) <==> CovenantIs(v, c)
  {
    hide UintIs, UintOf, HashIs, HashOf, Get, Named, Field;
    FieldIs(v, Name("covenantId"));
    FieldIs(v, Name("authorizingInput"));
    if v.Obj? && c.Some? {
      BytesExactly(Named(v, Name("covenantId")), c.value.covenantId);
      UintExactly(Named(v, Name("authorizingInput")), c.value.authorizingInput);
    }
  }

  lemma OutputExactly(v: Value, o: Output)
    ensures OutputFromRpc(v) == Ok(o) <==> OutputIs(v, o)
  {
    hide UintIs, UintOf, SpkIs, SpkOf, CovenantIs, CovenantFromRpc, Get, Named, Field;
    FieldIs(v, Name("value"));
    FieldIs(v, Name("scriptPublicKey"));
    FieldIs(v, Name("covenant"));
    if v.Obj? {
      UintExactly(Named(v, Name("value")), o.value);
      SpkExactly(Named(v, Name("scriptPublicKey")), o.scriptPublicKey);
      CovenantExactly(Named(v, Name("covenant")), o.covenant);
    }
  }

  lemma {:induction false} InputsExactly(vs: seq<Value>, inputs: seq<Input>)
    ensures InputsFromRpc(vs) == Ok(inputs) <==> InputsAre(Arr(vs), inputs)
  {
    hide InputFromRpc, InputIs;
    if vs == [] || inputs == [] {
      assert InputsAre(Arr(vs), inputs) <==> vs == [] && inputs == [];
    } else {
      InputExactly(vs[0], inputs[0]);
      InputsExactly(vs[1..], inputs[1..]);
      assert inputs == [inputs[0]] + inputs[1..];
      if InputsAre(Arr(vs[1..]), inputs[1..]) && InputIs(vs[0], inputs[0]) {
        forall k | 0 <= k < |inputs|
          ensures InputIs(vs[k], inputs[k])
        {
          assert k > 0 ==> InputIs(vs[1..][k - 1], inputs[1..][k - 1]);
        }
      }
      if InputsAre(Arr(vs), inputs) {
        forall k | 0 <= k < |inputs| - 1
          ensures InputIs(vs[1..][k], inputs[1..][k])
        {
          assert InputIs(vs[k + 1], inputs[k + 1]);
        }
      }
    }
  }

  lemma {:induction false} OutputsExactly(vs: seq<Value>, outputs: seq<Output>)
    ensures OutputsFromRpc(vs) == Ok(outputs) <==> OutputsAre(Arr(vs), outputs)
  {
    hide OutputFromRpc, OutputIs;
    if vs == [] || outputs == [] {
      assert OutputsAre(Arr(vs), outputs) <==> vs == [] && outputs == [];
    } else {
      OutputExactly(vs[0], outputs[0]);
      OutputsExactly(vs[1..], outputs[1..]);
      assert outputs == [outputs[0]] + outputs[1..];
      if OutputsAre(Arr(vs[1..]), outputs[1..]) && OutputIs(vs[0], outputs[0]) {
        forall k | 0 <= k < |outputs|
          ensures OutputIs(vs[k], outputs[k])
        {
          assert k > 0 ==> OutputIs(vs[1..][k - 1], outputs[1..][k - 1]);
        }
      }
      if OutputsAre(Arr(vs), outputs) {
        forall k | 0 <= k < |outputs| - 1
          ensures OutputIs(vs[1..][k], outputs[1..][k])
        {
          assert OutputIs(vs[k + 1], outputs[k + 1]);
        }
      }
    }
  }

  lemma FieldsAre(v: Value)
    ensures forall key {:trigger Field(v, key)} :: Field(v, key).Ok? <==> v.Obj?
    ensures forall key {:trigger Field(v, key)} :: v.Obj? ==> Field(v, key).value == Named(v, key)
  {
  }

  lemma PayloadExactly(x: Value, b: Bytes)
    ensures HexOf(if x == Null then Str([]) else x) == Ok(b) <==> (if x == Null then b == [] else BytesAre(x, b))
  {
    BytesExactly(x, b);
  }

  lemma ListsExactly(ins: Value, outs: Value, t: Transaction)
    ensures (ItemsOf(ins).Ok? && InputsFromRpc(ItemsOf(ins).value) == Ok(t.inputs)) <==> InputsAre(ins, t.inputs)
    ensures (ItemsOf(outs).Ok? && OutputsFromRpc(ItemsOf(outs).value) == Ok(t.outputs)) <==> OutputsAre(outs, t.outputs)
  {
    hide InputsFromRpc, OutputsFromRpc, InputIs, OutputIs;
    if ins.Arr? {
      InputsExactly(ins.items, t.inputs);
    }
    if outs.Arr? {
      OutputsExactly(outs.items, t.outputs);
    }
  }

  /** The members of an object, each read as the field of a transaction. */
  lemma MembersExactly(v: Value, t: Transaction)
    requires v.Obj?
    ensures var ins, outs := Named(v, INPUTS), Named(v, OUTPUTS);
            && ((ItemsOf(ins).Ok? && InputsFromRpc(ItemsOf(ins).value) == Ok(t.inputs)) <==> InputsAre(ins, t.inputs))
            && ((ItemsOf(outs).Ok? && OutputsFromRpc(ItemsOf(outs).value) == Ok(t.outputs)) <==> OutputsAre(outs, t.outputs))
    ensures UintOf(Named(v, LOCK_TIME)) == Ok(t.lockTime) <==> UintIs(Named(v, LOCK_TIME), t.lockTime)
    ensures HexOf(Named(v, SUBNETWORK_ID)) == Ok(t.subnetworkId) <==> BytesAre(Named(v, SUBNETWORK_ID), t.subnetworkId)
    ensures UintOf(Named(v, GAS)) == Ok(t.gas) <==> UintIs(Named(v, GAS), t.gas)
    ensures var x := Named(v, PAYLOAD);
            HexOf(if x == Null then Str([]) else x) == Ok(t.payload) <==> (if x == Null then t.payload == [] else BytesAre(x, t.payload))
    ensures var x := if Named(v, STORAGE_MASS) == Null then Named(v, MASS) else Named(v, STORAGE_MASS);
            UintOf(OrZero(x)) == Ok(t.storageMass) <==> UintOrNone(x, t.storageMass)
  {
    hide UintIs, UintOf, HexOf, BytesAre, InputsAre, OutputsAre, InputsFromRpc, OutputsFromRpc, Get, Named, ItemsOf, OrZero,
      UintOrNone, Name;
    ListsExactly(Named(v, INPUTS), Named(v, OUTPUTS), t);
    UintExactly(Named(v, LOCK_TIME), t.lockTime);
    BytesExactly(Named(v, SUBNETWORK_ID), t.subnetworkId);
    UintExactly(Named(v, GAS), t.gas);
    PayloadExactly(Named(v, PAYLOAD), t.payload);
    OptionalExactly(if Named(v, STORAGE_MASS) == Null then Named(v, MASS) else Named(v, STORAGE_MASS), t.storageMass);
  }

  lemma ReadNeeds(v: Value, t: Transaction)
    requires TxFromRpc(v) == Ok(t)
    ensures TxIs(v, t)
  {
    hide UintIs, UintOf, HexOf, BytesAre, InputsAre, OutputsAre, InputsFromRpc, OutputsFromRpc, Get, Named, Field, ItemsOf, OrZero,
      UintOrNone, Name;
    FieldsAre(v);
    MembersExactly(v, t);
  }

  lemma ReadSuffices(v: Value, t: Transaction)
    requires TxIs(v, t)
    ensures TxFromRpc(v) == Ok(t)
  {
    hide UintIs, UintOf, HexOf, BytesAre, InputsAre, OutputsAre, InputsFromRpc, OutputsFromRpc, Get, Named, Field, ItemsOf, OrZero,
      UintOrNone, Name;
    FieldsAre(v);
    MembersExactly(v, t);
  }

  /** A value reads as a transaction exactly when its members, each under its name, are the fields of that transaction. */
  lemma ReadsExactly(v: Value, t: Transaction)
    ensures TxFromRpc(v) == Ok(t) <==> TxIs(v, t)
  {
    hide TxFromRpc, TxIs;
    if TxFromRpc(v) == Ok(t) {
      ReadNeeds(v, t);
    }
    if TxIs(v, t) {
      ReadSuffices(v, t);
    }
  }

  /** What is written but never read back: no signature operations are counted, and nothing is verbose. */
  lemma UnreadMembers(i: Input, o: Output, t: Transaction)
    ensures |InputMembers(i)| == 6 && Member(Name("sigOpCount"), Num(0)) in InputMembers(i)
    ensures Member(Name("verboseData"), Null) in InputMembers(i)
    ensures |OutputMembers(o)| == 4 && Member(Name("verboseData"), Null) in OutputMembers(o)
    ensures |TxMembers(t)| == 9 && Member(Name("verboseData"), Null) in TxMembers(t)
  {
    hide Name;
    assert InputMembers(i)[3] == Member(Name("sigOpCount"), Num(0)) && InputMembers(i)[5] == Member(Name("verboseData"), Null);
    assert OutputMembers(o)[2] == Member(Name("verboseData"), Null);
    assert TxMembers(t)[8] == Member(Name("verboseData"), Null);
  }
}
