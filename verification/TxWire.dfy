/** Transactions on the RPC wire (scripts/chain/nodes.mjs:385-407). */
module TxWire {
  import opened Results
  import opened Bytes
  import opened Scripts
  import opened Tx
  import opened JsonStrings
  import opened Json
  import opened JsonRoundTrip

  const VERSION: Text := Name("version")
  const INPUTS: Text := Name("inputs")
  const OUTPUTS: Text := Name("outputs")
  const LOCK_TIME: Text := Name("lockTime")
  const SUBNETWORK_ID: Text := Name("subnetworkId")
  const GAS: Text := Name("gas")
  const PAYLOAD: Text := Name("payload")
  const STORAGE_MASS: Text := Name("storageMass")
  const VERBOSE_DATA: Text := Name("verboseData")
  const PREVIOUS_OUTPOINT: Text := Name("previousOutpoint")
  const SIGNATURE_SCRIPT: Text := Name("signatureScript")
  const SEQUENCE: Text := Name("sequence")
  const SIG_OP_COUNT: Text := Name("sigOpCount")
  const COMPUTE_BUDGET: Text := Name("computeBudget")
  const TRANSACTION_ID: Text := Name("transactionId")
  const INDEX: Text := Name("index")
  const VALUE: Text := Name("value")
  const SCRIPT_PUBLIC_KEY: Text := Name("scriptPublicKey")
  const COVENANT: Text := Name("covenant")
  const AUTHORIZING_INPUT: Text := Name("authorizingInput")
  const COVENANT_ID: Text := Name("covenantId")
  const MASS: Text := Name("mass")

  // ---------------------------------------------------------------- hexadecimal

  function HexText(b: Bytes): (t: Text)
    ensures |t| == 2 * |b|
  {
    if b == [] then [] else [HexDigit(b[0] / 16), HexDigit(b[0] % 16)] + HexText(b[1..])
  }

  function ReadHexText(t: Text): Option<Bytes> {
    if t == [] then Some([])
    else if |t| == 1 then None
    else
      var a, b, rest := DigitValue(t[0]), DigitValue(t[1]), ReadHexText(t[2..]);
      if a.Some? && b.Some? && rest.Some? && a.value < 16 && b.value < 16 then Some([a.value * 16 + b.value] + rest.value)
      else None
  }

  lemma NoHex()
    ensures LowerHex(HexText([]))
  {
  }

  lemma LowerPair(byte: Byte, rest: Text)
    requires LowerHex(rest)
    ensures LowerHex([HexDigit(byte / 16), HexDigit(byte % 16)] + rest)
  {
  }

  lemma {:induction false} HexReads(b: Bytes)
    ensures ReadHexText(HexText(b)) == Some(b)
    ensures LowerHex(HexText(b))
  {
    hide HexDigit, DigitValue, LowerHex;
    if b == [] {
      NoHex();
    } else {
      HexReads(b[1..]);
      DigitReads(b[0] / 16);
      DigitReads(b[0] % 16);
      Split(b[0]);
      assert HexText(b)[2..] == HexText(b[1..]);
      assert b == [b[0]] + b[1..];
      LowerPair(b[0], HexText(b[1..]));
    }
  }

  predicate LowerHex(t: Text) {
    forall i | 0 <= i < |t| :: IsDigit(t[i]) || 0x61 <= t[i] <= 0x66
  }

  // ---------------------------------------------------------------- writing

  /** Four digits for a valid version, then the script. */
  function SpkText(spk: Spk): Text {
    (if 0 <= spk.version <= 65535 then Hex4(spk.version) else []) + HexText(spk.script)
  }

  function OutpointMembers(o: Outpoint): seq<Member> {
    [Member(TRANSACTION_ID, Str(HexText(o.transactionId))), Member(INDEX, Num(o.index))]
  }

  function InputMembers(i: Input): seq<Member> {
    [Member(PREVIOUS_OUTPOINT, Obj(OutpointMembers(i.previousOutpoint))),
     Member(SIGNATURE_SCRIPT, Str(HexText(i.signatureScript))),
     Member(SEQUENCE, Big(i.sequence)),
     Member(SIG_OP_COUNT, Num(0)),
     Member(COMPUTE_BUDGET, Num(if i.computeBudget.Some? then i.computeBudget.value else 0)),
     Member(VERBOSE_DATA, Null)]
  }

  function CovenantMembers(b: Binding): seq<Member> {
    [Member(AUTHORIZING_INPUT, Num(b.authorizingInput)), Member(COVENANT_ID, Str(HexText(b.covenantId)))]
  }

  function OutputMembers(o: Output): seq<Member> {
    [Member(VALUE, Big(o.value)),
     Member(SCRIPT_PUBLIC_KEY, Str(SpkText(o.scriptPublicKey))),
     Member(VERBOSE_DATA, Null),
     Member(COVENANT, if o.covenant.Some? then Obj(CovenantMembers(o.covenant.value)) else Null)]
  }

  function InputValues(inputs: seq<Input>): (vs: seq<Value>)
    ensures |vs| == |inputs|
  {
    seq(|inputs|, k requires 0 <= k < |inputs| => Obj(InputMembers(inputs[k])))
  }

  function OutputValues(outputs: seq<Output>): (vs: seq<Value>)
    ensures |vs| == |outputs|
  {
    seq(|outputs|, k requires 0 <= k < |outputs| => Obj(OutputMembers(outputs[k])))
  }

  function TxMembers(t: Transaction): seq<Member> {
    [Member(VERSION, Num(t.version)),
     Member(INPUTS, Arr(InputValues(t.inputs))),
     Member(OUTPUTS, Arr(OutputValues(t.outputs))),
     Member(LOCK_TIME, Big(t.lockTime)),
     Member(SUBNETWORK_ID, Str(HexText(t.subnetworkId))),
     Member(GAS, Big(t.gas)),
     Member(PAYLOAD, Str(HexText(t.payload))),
     Member(STORAGE_MASS, Big(t.storageMass)),
     Member(VERBOSE_DATA, Null)]
  }

  function TxToRpc(t: Transaction): Value {
    Obj(TxMembers(t))
  }

  // ---------------------------------------------------------------- reading

  function Get(members: seq<Member>, key: Text): Option<Value> {
    if members == [] then None
    else if members[0].key == key then Some(members[0].value)
    else Get(members[1..], key)
  }

  /** A member of an object; a missing one reads as null. */
  function Field(v: Value, key: Text): Result<Value> {
    match v
    case Obj(members) => Ok(if Get(members, key).Some? then Get(members, key).value else Null)
    case _ => Err(RPC_FIELD)
  }

  /** A lossless non-negative integer: a safe number, or a canonical decimal string of at most 25 digits. */
  function UintOf(v: Value): Result<nat> {
    match v
    case Num(n) => if n >= 0 then Ok(n) else Err(RPC_FIELD)
    case Big(n) => if n >= 0 then Ok(n) else Err(RPC_FIELD)
    case Str(t) =>
      if 1 <= |t| <= 25 && (forall k | 0 <= k < |t| :: IsDigit(t[k])) && (t[0] != 0x30 || |t| == 1) then Ok(DigitsValue(t))
      else Err(RPC_FIELD)
    case _ => Err(RPC_FIELD)
  }

  function OrZero(v: Value): Value {
    if v == Null then Num(0) else v
  }

  function HexOf(v: Value): Result<Bytes> {
    match v
    case Str(t) => if ReadHexText(t).Some? then Ok(ReadHexText(t).value) else Err(RPC_FIELD)
    case _ => Err(RPC_FIELD)
  }

  function HashOf(v: Value): Result<Bytes> {
    match v
    case Str(t) => if |t| == 64 && LowerHex(t) && ReadHexText(t).Some? then Ok(ReadHexText(t).value) else Err(RPC_FIELD)
    case _ => Err(RPC_FIELD)
  }

  function SpkOf(v: Value): Result<Spk> {
    match v
    case Str(t) =>
      if |t| >= 4 && ReadHex4(t).Some? && ReadHexText(t[4..]).Some? then Ok(Spk(ReadHex4(t).value, ReadHexText(t[4..]).value))
      else Err(RPC_FIELD)
    case _ => Err(RPC_FIELD)
  }

  function InputFromRpc(v: Value): Result<Input> {
    var outpoint :- Field(v, PREVIOUS_OUTPOINT);
    var idText :- Field(outpoint, TRANSACTION_ID);
    var id :- HashOf(idText);
    var indexValue :- Field(outpoint, INDEX);
    var index :- UintOf(indexValue);
    var scriptText :- Field(v, SIGNATURE_SCRIPT);
    var script :- HexOf(scriptText);
    var sequenceValue :- Field(v, SEQUENCE);
    var sequence :- UintOf(sequenceValue);
    var budgetValue :- Field(v, COMPUTE_BUDGET);
    var budget :- UintOf(OrZero(budgetValue));
    Ok(Input(Outpoint(id, index), script, sequence, Some(budget), None))
  }

  function CovenantFromRpc(v: Value): Result<Option<Binding>> {
    if v == Null then Ok(None)
    else
      var idText :- Field(v, COVENANT_ID);
      var id :- HashOf(idText);
      var inputValue :- Field(v, AUTHORIZING_INPUT);
      var input :- UintOf(inputValue);
      Ok(Some(Binding(id, input)))
  }

  function OutputFromRpc(v: Value): Result<Output> {
    var amountValue :- Field(v, VALUE);
    var amount :- UintOf(amountValue);
    var spkValue :- Field(v, SCRIPT_PUBLIC_KEY);
    var spk :- SpkOf(spkValue);
    var covenantValue :- Field(v, COVENANT);
    var covenant :- CovenantFromRpc(covenantValue);
    Ok(Output(amount, spk, covenant))
  }

  function InputsFromRpc(vs: seq<Value>): Result<seq<Input>> {
    if vs == [] then Ok([])
    else
      var head :- InputFromRpc(vs[0]);
      var tail :- InputsFromRpc(vs[1..]);
      Ok([head] + tail)
  }

  function OutputsFromRpc(vs: seq<Value>): Result<seq<Output>> {
    if vs == [] then Ok([])
    else
      var head :- OutputFromRpc(vs[0]);
      var tail :- OutputsFromRpc(vs[1..]);
      Ok([head] + tail)
  }

  function ItemsOf(v: Value): Result<seq<Value>> {
    match v
    case Arr(items) => Ok(items)
    case _ => Err(RPC_FIELD)
  }

  function IntegerOf(v: Value): Result<int> {
    match v
    case Num(n) => Ok(n)
    case _ => Err(RPC_FIELD)
  }

  function TxFromRpc(v: Value): Result<Transaction> {
    var versionValue :- Field(v, VERSION);
    var version :- IntegerOf(versionValue);
    var inputsValue :- Field(v, INPUTS);
    var inputItems :- ItemsOf(inputsValue);
    var outputsValue :- Field(v, OUTPUTS);
    var outputItems :- ItemsOf(outputsValue);
    var inputs :- InputsFromRpc(inputItems);
    var outputs :- OutputsFromRpc(outputItems);
    var lockValue :- Field(v, LOCK_TIME);
    var lockTime :- UintOf(lockValue);
    var subnetworkValue :- Field(v, SUBNETWORK_ID);
    var subnetworkId :- HexOf(subnetworkValue);
    var gasValue :- Field(v, GAS);
    var gas :- UintOf(gasValue);
    var payloadValue :- Field(v, PAYLOAD);
    var payload :- HexOf(if payloadValue == Null then Str([]) else payloadValue);
    var storageValue :- Field(v, STORAGE_MASS);
    var massValue :- Field(v, MASS);
    var storageMass :- UintOf(OrZero(if storageValue == Null then massValue else storageValue));
    Ok(Transaction(version, inputs, outputs, lockTime, subnetworkId, gas, payload, storageMass))
  }
}
