/** A transaction survives the trip over the RPC wire. */
module TxWireRoundTrip {
  import opened Results
  import opened Bytes
  import opened Scripts
  import opened Tx
  import opened JsonStrings
  import opened Json
  import opened JsonRoundTrip
  import opened TxWire

  // ---------------------------------------------------------------- fields

  lemma {:induction false} GetAt(members: seq<Member>, i: nat)
    requires i < |members| && Distinct(Keys(members))
    ensures Get(members, members[i].key) == Some(members[i].value)
  {
    if i > 0 {
      assert Keys(members)[0] == members[0].key && Keys(members)[i] == members[i].key;
      assert Distinct(Keys(members[1..])) by {
        assert Keys(members[1..]) == Keys(members)[1..];
      }
      GetAt(members[1..], i - 1);
    }
  }

  lemma {:induction false} GetLossless(members: seq<Member>, key: Text)
    ensures Get(LosslessMembers(members), key)
         == (match Get(members, key) case Some(v) => Some(Lossless(v)) case None => None)
  {
    hide Lossless;
    if members != [] {
      GetLossless(members[1..], key);
      assert LosslessMembers(members)[1..] == LosslessMembers(members[1..]);
    }
  }

  /** The written member comes back as its lossless form. */
  lemma FieldReads(members: seq<Member>, i: nat)
    requires i < |members| && Distinct(Keys(members))
    ensures Field(Lossless(Obj(members)), members[i].key) == Ok(Lossless(members[i].value))
  {
    hide Get, LosslessMembers;
    GetAt(members, i);
    GetLossless(members, members[i].key);
  }

  lemma {:induction false} NoLeadingZero(n: nat)
    requires n > 0
    ensures DecimalDigits(n)[0] != 0x30
  {
    if n >= 10 {
      NoLeadingZero(n / 10);
    }
  }

  lemma Pow10Twenty()
    ensures Pow10(20) == 100_000_000_000_000_000_000
  {
    Pow10Fifteen();
    assert Pow10(20) == 100_000 * Pow10(15);
  }

  /** A 64-bit amount reads back, as a number or as a decimal string. */
  lemma AmountReads(n: int)
    requires U64(n)
    ensures UintOf(Lossless(Big(n))) == Ok(n)
    ensures |Decimal(n)| <= 25
  {
    hide DecimalDigits, DigitsValue, Pow10;
    Pow10Twenty();
    DigitsShort(n, 20);
    DigitsRead(n);
    if n > 0 {
      NoLeadingZero(n);
    }
  }

  lemma HexFieldReads(b: Bytes)
    ensures HexOf(Lossless(Str(HexText(b)))) == Ok(b)
    ensures |b| == 32 ==> HashOf(Lossless(Str(HexText(b)))) == Ok(b)
  {
    hide HexText, ReadHexText;
    HexReads(b);
  }

  lemma SpkReads(spk: Spk)
    requires 0 <= spk.version <= 65535
    ensures SpkOf(Lossless(Str(SpkText(spk)))) == Ok(spk)
  {
    hide HexText, ReadHexText, Hex4, ReadHex4;
    var t := SpkText(spk);
    assert t[4..] == HexText(spk.script);
    HexReads(spk.script);
    Hex4Reads(spk.version, HexText(spk.script));
  }

  // ---------------------------------------------------------------- distinct names

  lemma KeysAre(members: seq<Member>, keys: seq<Text>)
    requires |members| == |keys| && forall i | 0 <= i < |keys| :: members[i].key == keys[i]
    requires Distinct(keys)
    ensures Distinct(Keys(members))
  {
    assert Keys(members) == keys;
  }

  lemma InputKeys()
    ensures Distinct([PREVIOUS_OUTPOINT, SIGNATURE_SCRIPT, SEQUENCE, SIG_OP_COUNT, COMPUTE_BUDGET, VERBOSE_DATA])
  {
    assert PREVIOUS_OUTPOINT[0] == 0x70 && SIGNATURE_SCRIPT[2] == 0x67 && SIGNATURE_SCRIPT[3] == 0x6e;
    assert |PREVIOUS_OUTPOINT| == 16 && |SIGNATURE_SCRIPT| == 15 && |SEQUENCE| == 8 && |SIG_OP_COUNT| == 10;
    assert |COMPUTE_BUDGET| == 13 && |VERBOSE_DATA| == 11;
  }

  lemma OutputKeys()
    ensures Distinct([VALUE, SCRIPT_PUBLIC_KEY, VERBOSE_DATA, COVENANT])
    ensures Distinct([AUTHORIZING_INPUT, COVENANT_ID]) && Distinct([TRANSACTION_ID, INDEX])
  {
    assert |VALUE| == 5 && |SCRIPT_PUBLIC_KEY| == 15 && |VERBOSE_DATA| == 11 && |COVENANT| == 8;
    assert |AUTHORIZING_INPUT| == 16 && |COVENANT_ID| == 10 && |TRANSACTION_ID| == 13 && |INDEX| == 5;
  }

  lemma TxKeys()
    ensures Distinct([VERSION, INPUTS, OUTPUTS, LOCK_TIME, SUBNETWORK_ID, GAS, PAYLOAD, STORAGE_MASS, VERBOSE_DATA])
  {
    assert |VERSION| == 7 && VERSION[0] == 0x76 && |INPUTS| == 6 && |OUTPUTS| == 7 && OUTPUTS[0] == 0x6f;
    assert |LOCK_TIME| == 8 && |SUBNETWORK_ID| == 12 && |GAS| == 3 && |PAYLOAD| == 7 && PAYLOAD[0] == 0x70;
    assert |STORAGE_MASS| == 11 && STORAGE_MASS[0] == 0x73 && |VERBOSE_DATA| == 11 && VERBOSE_DATA[0] == 0x76;
  }

  // ---------------------------------------------------------------- inputs and outputs

  /** Inputs that carry a budget and no signature-operation count. */
  predicate Budgeted(i: Input) {
    i.computeBudget.Some? && i.sigOpCount == None
  }

  lemma OutpointReads(o: Outpoint)
    requires ValidOutpoint(o)
    ensures var v := Lossless(Obj(OutpointMembers(o)));
            && (Field(v, TRANSACTION_ID).Ok? && HashOf(Field(v, TRANSACTION_ID).value) == Ok(o.transactionId))
            && (Field(v, INDEX).Ok? && UintOf(Field(v, INDEX).value) == Ok(o.index))
  {
    hide Field, HashOf, HexText, LosslessMembers;
    var m := OutpointMembers(o);
    OutputKeys();
    KeysAre(m, [TRANSACTION_ID, INDEX]);
    FieldReads(m, 0);
    FieldReads(m, 1);
    HexFieldReads(o.transactionId);
  }

  lemma InputReads(i: Input)
    requires ValidInput(i) && Budgeted(i)
    ensures InputFromRpc(Lossless(Obj(InputMembers(i)))) == Ok(i)
  {
    hide Field, HashOf, HexOf, HexText, LosslessMembers, UintOf, OutpointMembers, Decimal, Distinct;
    var m := InputMembers(i);
    InputKeys();
    KeysAre(m, [PREVIOUS_OUTPOINT, SIGNATURE_SCRIPT, SEQUENCE, SIG_OP_COUNT, COMPUTE_BUDGET, VERBOSE_DATA]);
    FieldReads(m, 0);
    FieldReads(m, 1);
    FieldReads(m, 2);
    FieldReads(m, 4);
    OutpointReads(i.previousOutpoint);
    HexFieldReads(i.signatureScript);
    AmountReads(i.sequence);
    SmallReads(i.computeBudget.value);
  }

  lemma SmallReads(n: int)
    requires n >= 0
    ensures UintOf(Lossless(Num(n))) == Ok(n)
  {
  }

  lemma CovenantReads(b: Binding)
    requires |b.covenantId| == 32 && b.authorizingInput >= 0
    ensures CovenantFromRpc(Lossless(Obj(CovenantMembers(b)))) == Ok(Some(b))
  {
    hide Field, HashOf, HexText, LosslessMembers, UintOf, Distinct;
    var m := CovenantMembers(b);
    OutputKeys();
    KeysAre(m, [AUTHORIZING_INPUT, COVENANT_ID]);
    FieldReads(m, 0);
    FieldReads(m, 1);
    HexFieldReads(b.covenantId);
    SmallReads(b.authorizingInput);
  }

  lemma OutputReads(o: Output, version: int, n: int)
    requires ValidOutput(o, version, n)
    ensures OutputFromRpc(Lossless(Obj(OutputMembers(o)))) == Ok(o)
  {
    hide Field, HashOf, HexOf, HexText, LosslessMembers, UintOf, SpkOf, SpkText, CovenantFromRpc, CovenantMembers, Decimal, Distinct;
    var m := OutputMembers(o);
    OutputKeys();
    KeysAre(m, [VALUE, SCRIPT_PUBLIC_KEY, VERBOSE_DATA, COVENANT]);
    FieldReads(m, 0);
    FieldReads(m, 1);
    FieldReads(m, 3);
    AmountReads(o.value);
    SpkReads(o.scriptPublicKey);
    if o.covenant.Some? {
      CovenantReads(o.covenant.value);
    } else {
      NoCovenant();
    }
  }

  lemma NoCovenant()
    ensures CovenantFromRpc(Lossless(Null)) == Ok(None)
  {
  }

  lemma {:induction false} InputsRead(inputs: seq<Input>)
    requires forall k | 0 <= k < |inputs| :: ValidInput(inputs[k]) && Budgeted(inputs[k])
    ensures InputsFromRpc(LosslessItems(InputValues(inputs))) == Ok(inputs)
  {
    hide InputFromRpc, InputMembers, Lossless;
    if inputs != [] {
      InputReads(inputs[0]);
      InputsRead(inputs[1..]);
      assert InputValues(inputs)[1..] == InputValues(inputs[1..]);
      assert LosslessItems(InputValues(inputs))[1..] == LosslessItems(InputValues(inputs[1..]));
      assert inputs == [inputs[0]] + inputs[1..];
    }
  }

  lemma {:induction false} OutputsRead(outputs: seq<Output>, version: int, n: int)
    requires forall k | 0 <= k < |outputs| :: ValidOutput(outputs[k], version, n)
    ensures OutputsFromRpc(LosslessItems(OutputValues(outputs))) == Ok(outputs)
  {
    hide OutputFromRpc, OutputMembers, Lossless;
    if outputs != [] {
      OutputReads(outputs[0], version, n);
      OutputsRead(outputs[1..], version, n);
      assert OutputValues(outputs)[1..] == OutputValues(outputs[1..]);
      assert LosslessItems(OutputValues(outputs))[1..] == LosslessItems(OutputValues(outputs[1..]));
      assert outputs == [outputs[0]] + outputs[1..];
    }
  }

  // ---------------------------------------------------------------- shape

  lemma {:induction false} ShallowItems(items: seq<Value>, d: nat)
    requires forall i | 0 <= i < |items| :: Depth(items[i]) <= d
    ensures ItemsDepth(items) <= d
  {
    hide Depth;
    if items != [] {
      assert Depth(items[0]) <= d;
      ShallowItems(items[1..], d);
    }
  }

  lemma {:induction false} ShallowMembers(members: seq<Member>, d: nat)
    requires forall i | 0 <= i < |members| :: Depth(members[i].value) <= d
    ensures MembersDepth(members) <= d
  {
    hide Depth;
    if members != [] {
      assert Depth(members[0].value) <= d;
      ShallowMembers(members[1..], d);
    }
  }

  lemma ObjectShape(members: seq<Member>, d: nat)
    requires Distinct(Keys(members)) && forall i | 0 <= i < |members| :: Printable(members[i].value) && Depth(members[i].value) <= d
    ensures Printable(Obj(members)) && Depth(Obj(members)) <= d + 1
  {
    hide Distinct;
    ShallowMembers(members, d);
  }

  lemma InputShape(i: Input)
    requires ValidInput(i)
    ensures Printable(Obj(InputMembers(i))) && Depth(Obj(InputMembers(i))) <= 2
  {
    hide HexText, Decimal, Distinct;
    InputKeys();
    OutputKeys();
    KeysAre(InputMembers(i), [PREVIOUS_OUTPOINT, SIGNATURE_SCRIPT, SEQUENCE, SIG_OP_COUNT, COMPUTE_BUDGET, VERBOSE_DATA]);
    KeysAre(OutpointMembers(i.previousOutpoint), [TRANSACTION_ID, INDEX]);
    AmountReads(i.sequence);
    ObjectShape(OutpointMembers(i.previousOutpoint), 0);
    ObjectShape(InputMembers(i), 1);
  }

  lemma OutputShape(o: Output, version: int, n: int)
    requires ValidOutput(o, version, n) && n <= 65535
    ensures Printable(Obj(OutputMembers(o))) && Depth(Obj(OutputMembers(o))) <= 2
  {
    hide HexText, Decimal, Distinct, SpkText;
    OutputKeys();
    KeysAre(OutputMembers(o), [VALUE, SCRIPT_PUBLIC_KEY, VERBOSE_DATA, COVENANT]);
    AmountReads(o.value);
    if o.covenant.Some? {
      KeysAre(CovenantMembers(o.covenant.value), [AUTHORIZING_INPUT, COVENANT_ID]);
      ObjectShape(CovenantMembers(o.covenant.value), 0);
    }
    ObjectShape(OutputMembers(o), 1);
  }

  lemma ItemsShape(items: seq<Value>, d: nat)
    requires forall k | 0 <= k < |items| :: Printable(items[k]) && Depth(items[k]) <= d
    ensures Printable(Arr(items)) && Depth(Arr(items)) <= d + 1
  {
    ShallowItems(items, d);
  }

  lemma InputsShape(inputs: seq<Input>)
    requires forall k | 0 <= k < |inputs| :: ValidInput(inputs[k])
    ensures Printable(Arr(InputValues(inputs))) && Depth(Arr(InputValues(inputs))) <= 3
  {
    hide InputMembers, Printable, Depth;
    forall k | 0 <= k < |inputs|
      ensures Printable(InputValues(inputs)[k]) && Depth(InputValues(inputs)[k]) <= 2
    {
      InputShape(inputs[k]);
    }
    ItemsShape(InputValues(inputs), 2);
  }

  lemma OutputsShape(outputs: seq<Output>, version: int, n: int)
    requires n <= 65535 && forall k | 0 <= k < |outputs| :: ValidOutput(outputs[k], version, n)
    ensures Printable(Arr(OutputValues(outputs))) && Depth(Arr(OutputValues(outputs))) <= 3
  {
    hide OutputMembers, Printable, Depth;
    forall k | 0 <= k < |outputs|
      ensures Printable(OutputValues(outputs)[k]) && Depth(OutputValues(outputs)[k]) <= 2
    {
      OutputShape(outputs[k], version, n);
    }
    ItemsShape(OutputValues(outputs), 2);
  }

  lemma ScalarShape(v: Value)
    requires match v case Null => true case Num(n) => -SAFE <= n <= SAFE case Big(n) => |Decimal(n)| <= MAX_TOKEN case Str(_) => true
             case _ => false
    ensures Printable(v) && Depth(v) == 0
  {
  }

  lemma TxShape(t: Transaction)
    requires ValidTransaction(t)
    ensures Printable(TxToRpc(t)) && Depth(TxToRpc(t)) <= 4
  {
    hide HexText, Decimal, Distinct, InputValues, OutputValues, ValidInput, ValidOutput, Printable, Depth;
    var m := TxMembers(t);
    TxKeys();
    KeysAre(m, [VERSION, INPUTS, OUTPUTS, LOCK_TIME, SUBNETWORK_ID, GAS, PAYLOAD, STORAGE_MASS, VERBOSE_DATA]);
    AmountReads(t.lockTime);
    AmountReads(t.gas);
    AmountReads(t.storageMass);
    InputsShape(t.inputs);
    OutputsShape(t.outputs, t.version, |t.inputs|);
    forall i | 0 <= i < |m|
      ensures Printable(m[i].value) && Depth(m[i].value) <= 3
    {
      if i != 1 && i != 2 {
        ScalarShape(m[i].value);
      }
    }
    ObjectShape(m, 3);
  }

  lemma TxReads(t: Transaction)
    requires ValidTransaction(t) && forall k | 0 <= k < |t.inputs| :: Budgeted(t.inputs[k])
    ensures TxFromRpc(Lossless(TxToRpc(t))) == Ok(t)
  {
    hide Field, HexOf, HexText, LosslessMembers, UintOf, Decimal, Distinct, InputValues, OutputValues, InputsFromRpc, OutputsFromRpc,
      LosslessItems, ValidInput, ValidOutput;
    var m := TxMembers(t);
    TxKeys();
    KeysAre(m, [VERSION, INPUTS, OUTPUTS, LOCK_TIME, SUBNETWORK_ID, GAS, PAYLOAD, STORAGE_MASS, VERBOSE_DATA]);
    FieldReads(m, 0);
    FieldReads(m, 1);
    FieldReads(m, 2);
    FieldReads(m, 3);
    FieldReads(m, 4);
    FieldReads(m, 5);
    FieldReads(m, 6);
    FieldReads(m, 7);
    AnyField(m, MASS);
    InputsRead(t.inputs);
    OutputsRead(t.outputs, t.version, |t.inputs|);
    AmountReads(t.lockTime);
    AmountReads(t.gas);
    AmountReads(t.storageMass);
    HexFieldReads(t.subnetworkId);
    HexFieldReads(t.payload);
  }

  lemma AnyField(members: seq<Member>, key: Text)
    ensures Field(Lossless(Obj(members)), key).Ok?
  {
  }

  /** Written to the wire, printed, parsed and read back, a valid transaction with budgets is the same transaction. */
  lemma WireRoundTrip(t: Transaction)
    requires ValidTransaction(t) && forall k | 0 <= k < |t.inputs| :: Budgeted(t.inputs[k])
    ensures ParseJson(JsonText(TxToRpc(t))).Ok?
    ensures TxFromRpc(ParseJson(JsonText(TxToRpc(t))).value) == Ok(t)
  {
    hide ParseJson, JsonText, TxToRpc, TxFromRpc, Lossless, Printable, Depth;
    TxShape(t);
    RoundTrip(TxToRpc(t));
    TxReads(t);
  }
}
