/** What a wallet may change when it signs (scripts/core/src/transaction.ts:91-106). */
module Signing {
  import opened Results
  import opened Bytes
  import opened Scripts
  import opened Tx
  import JsonStrings
  import opened TxWire
  import opened Stable

  type Key = JsonStrings.Text

  // ---------------------------------------------------------------- a transaction as plain data

  const SCRIPT: Key := JsonStrings.Name("script")

  function OutpointData(o: Outpoint): Data {
    Object(map[TRANSACTION_ID := Data.Text(HexText(o.transactionId)), INDEX := Num(o.index)])
  }

  function Optional(key: Key, n: Option<int>): map<Key, Data> {
    if n.Some? then map[key := Num(n.value)] else map[]
  }

  function InputMap(i: Input): map<Key, Data> {
    map[PREVIOUS_OUTPOINT := OutpointData(i.previousOutpoint), SIGNATURE_SCRIPT := Data.Text(HexText(i.signatureScript)),
        SEQUENCE := BigInt(i.sequence)]
    + Optional(COMPUTE_BUDGET, i.computeBudget) + Optional(SIG_OP_COUNT, i.sigOpCount)
  }

  function SpkData(s: Spk): Data {
    Object(map[VERSION := Num(s.version), SCRIPT := Data.Text(HexText(s.script))])
  }

  function CovenantData(c: Option<Binding>): Data {
    match c
    case None => Null
    case Some(b) => Object(map[COVENANT_ID := Data.Text(HexText(b.covenantId)), AUTHORIZING_INPUT := Num(b.authorizingInput)])
  }

  function OutputMap(o: Output): map<Key, Data> {
    map[VALUE := BigInt(o.value), SCRIPT_PUBLIC_KEY := SpkData(o.scriptPublicKey), COVENANT := CovenantData(o.covenant)]
  }

  function InputsData(inputs: seq<Input>): (ds: seq<Data>)
    ensures |ds| == |inputs|
  {
    seq(|inputs|, k requires 0 <= k < |inputs| => Object(InputMap(inputs[k])))
  }

  function OutputsData(outputs: seq<Output>): (ds: seq<Data>)
    ensures |ds| == |outputs|
  {
    seq(|outputs|, k requires 0 <= k < |outputs| => Object(OutputMap(outputs[k])))
  }

  function TxMap(t: Transaction): map<Key, Data> {
    map[VERSION := Num(t.version), INPUTS := List(InputsData(t.inputs)), OUTPUTS := List(OutputsData(t.outputs)),
        LOCK_TIME := BigInt(t.lockTime), SUBNETWORK_ID := Data.Text(HexText(t.subnetworkId)), GAS := BigInt(t.gas),
        PAYLOAD := Data.Text(HexText(t.payload)), STORAGE_MASS := BigInt(t.storageMass)]
  }

  // ---------------------------------------------------------------- the check

  /** Signature scripts of the named inputs blanked out. */
  function Scrubbed(t: Transaction, seen: set<int>): Transaction {
    t.(inputs := seq(|t.inputs|, n requires 0 <= n < |t.inputs| =>
         if n in seen then t.inputs[n].(signatureScript := []) else t.inputs[n]))
  }

  /** Each index names an input, and none twice. */
  function IndicesChecked(authorized: seq<int>, inputCount: int): Result<()> {
    if authorized == [] then Ok(())
    else
      var n := |authorized| - 1;
      var _ :- IndicesChecked(authorized[..n], inputCount);
      var _ :- Check(0 <= authorized[n] <= inputCount - 1, INTEGER_RANGE);
      Check(authorized[n] !in authorized[..n], DUPLICATE_SIGN_INDEX)
  }

  predicate OrdinarySignature(sig: Bytes) {
    |sig| == 66 && sig[0] == 0x41 && sig[65] == 1
  }

  function AssertOnlyAuthorizedSignaturesChanged(before: Transaction, after: Transaction, authorized: seq<int>): Result<()> {
    var _ :- Check(ValidTransaction(before), INTEGER_RANGE);
    var _ :- Check(ValidTransaction(after), INTEGER_RANGE);
    var _ :- IndicesChecked(authorized, |before.inputs|);
    var seen := set i | i in authorized;
    var _ :- Check(Snapshot(Object(TxMap(Scrubbed(before, seen)))) == Snapshot(Object(TxMap(Scrubbed(after, seen)))),
                   WALLET_MUTATED_TRANSACTION);
    Check(forall k | 0 <= k < |authorized| ::
            0 <= authorized[k] < |after.inputs| && OrdinarySignature(after.inputs[authorized[k]].signatureScript),
          ORDINARY_SIGNATURE_FORMAT)
  }

  /** The source's passes: fill the set of indices, compare the scrubbed snapshots, check each signature. */
  method CheckSigned(before: Transaction, after: Transaction, authorized: seq<int>) returns (r: Result<()>)
    ensures r == AssertOnlyAuthorizedSignaturesChanged(before, after, authorized)
  {
    hide ValidTransaction, Snapshot, TxMap, Scrubbed, OrdinarySignature;
    var _ :- Check(ValidTransaction(before), INTEGER_RANGE);
    var _ :- Check(ValidTransaction(after), INTEGER_RANGE);
    var seen: set<int> := {};
    for k := 0 to |authorized|
      invariant IndicesChecked(authorized[..k], |before.inputs|) == Ok(())
      invariant seen == set i | i in authorized[..k]
    {
      var i := authorized[k];
      assert authorized[..k + 1][..k] == authorized[..k];
      if !(0 <= i <= |before.inputs| - 1) {
        FirstBadIndex(authorized, |before.inputs|, k + 1);
        return Err(INTEGER_RANGE);
      }
      if i in seen {
        FirstBadIndex(authorized, |before.inputs|, k + 1);
        return Err(DUPLICATE_SIGN_INDEX);
      }
      assert forall j :: j in authorized[..k + 1] <==> j in authorized[..k] || j == i;
      seen := seen + {i};
    }
    assert authorized[..|authorized|] == authorized;
    var _ :- Check(Snapshot(Object(TxMap(Scrubbed(before, seen)))) == Snapshot(Object(TxMap(Scrubbed(after, seen)))),
                   WALLET_MUTATED_TRANSACTION);
    for k := 0 to |authorized|
      invariant forall j | 0 <= j < k ::
                  0 <= authorized[j] < |after.inputs| && OrdinarySignature(after.inputs[authorized[j]].signatureScript)
    {
      var i := authorized[k];
      if !(0 <= i < |after.inputs| && OrdinarySignature(after.inputs[i].signatureScript)) {
        return Err(ORDINARY_SIGNATURE_FORMAT);
      }
    }
    r := Ok(());
  }

  lemma {:induction false} FirstBadIndex(authorized: seq<int>, inputCount: int, n: nat)
    requires n <= |authorized| && IndicesChecked(authorized[..n], inputCount).Err?
    ensures IndicesChecked(authorized, inputCount) == IndicesChecked(authorized[..n], inputCount)
    decreases |authorized|
  {
    if n == |authorized| {
      assert authorized[..n] == authorized;
    } else {
      var before := authorized[..|authorized| - 1];
      assert before[..n] == authorized[..n];
      FirstBadIndex(before, inputCount, n);
    }
  }

  // ---------------------------------------------------------------- what it means

  lemma KeyFacts()
    ensures |VERSION| == 7 && VERSION[0] == 0x76 && |INPUTS| == 6 && INPUTS[0] == 0x69 && |OUTPUTS| == 7 && OUTPUTS[0] == 0x6f
    ensures |LOCK_TIME| == 8 && |SUBNETWORK_ID| == 12 && |GAS| == 3 && |PAYLOAD| == 7 && PAYLOAD[0] == 0x70 && |STORAGE_MASS| == 11
    ensures |PREVIOUS_OUTPOINT| == 16 && |SIGNATURE_SCRIPT| == 15 && |SEQUENCE| == 8 && |SIG_OP_COUNT| == 10 && |COMPUTE_BUDGET| == 13
    ensures |VALUE| == 5 && |SCRIPT_PUBLIC_KEY| == 15 && |COVENANT| == 8 && |AUTHORIZING_INPUT| == 16 && |COVENANT_ID| == 10
    ensures |TRANSACTION_ID| == 13 && |INDEX| == 5 && |SCRIPT| == 6
  {
  }

  lemma OutpointNamed(a: Outpoint, b: Outpoint)
    requires OutpointData(a) == OutpointData(b)
    ensures a == b
  {
    hide HexText;
    KeyFacts();
    var m, n := OutpointData(a).members, OutpointData(b).members;
    assert m[TRANSACTION_ID] == n[TRANSACTION_ID] && m[INDEX] == n[INDEX];
    HexInjective(a.transactionId, b.transactionId);
  }

  lemma OptionalNamed(base: map<Key, Data>, k1: Key, k2: Key, x: Option<int>, y: Option<int>)
    requires k1 != k2 && k1 !in base && k2 !in base
    ensures var m := base + Optional(k1, x) + Optional(k2, y);
            && (k1 in m <==> x.Some?) && (x.Some? ==> m[k1] == Num(x.value))
            && (k2 in m <==> y.Some?) && (y.Some? ==> m[k2] == Num(y.value))
            && forall k | k in base :: k in m && m[k] == base[k]
  {
  }

  lemma InputNamed(a: Input, b: Input)
    requires InputMap(a) == InputMap(b)
    ensures a == b
  {
    hide HexText, OutpointData, Optional;
    KeyFacts();
    var m, n := InputMap(a), InputMap(b);
    var base := map[PREVIOUS_OUTPOINT := OutpointData(a.previousOutpoint), SIGNATURE_SCRIPT := Data.Text(HexText(a.signatureScript)),
                    SEQUENCE := BigInt(a.sequence)];
    var other := map[PREVIOUS_OUTPOINT := OutpointData(b.previousOutpoint), SIGNATURE_SCRIPT := Data.Text(HexText(b.signatureScript)),
                     SEQUENCE := BigInt(b.sequence)];
    OptionalNamed(base, COMPUTE_BUDGET, SIG_OP_COUNT, a.computeBudget, a.sigOpCount);
    OptionalNamed(other, COMPUTE_BUDGET, SIG_OP_COUNT, b.computeBudget, b.sigOpCount);
    assert m[PREVIOUS_OUTPOINT] == base[PREVIOUS_OUTPOINT] && m[SIGNATURE_SCRIPT] == base[SIGNATURE_SCRIPT]
           && m[SEQUENCE] == base[SEQUENCE];
    assert n[PREVIOUS_OUTPOINT] == other[PREVIOUS_OUTPOINT] && n[SIGNATURE_SCRIPT] == other[SIGNATURE_SCRIPT]
           && n[SEQUENCE] == other[SEQUENCE];
    OutpointNamed(a.previousOutpoint, b.previousOutpoint);
    HexInjective(a.signatureScript, b.signatureScript);
  }

  lemma OutputNamed(a: Output, b: Output)
    requires OutputMap(a) == OutputMap(b)
    ensures a == b
  {
    hide HexText, SpkData, CovenantData;
    KeyFacts();
    var m, n := OutputMap(a), OutputMap(b);
    assert m[VALUE] == n[VALUE] && m[SCRIPT_PUBLIC_KEY] == n[SCRIPT_PUBLIC_KEY] && m[COVENANT] == n[COVENANT];
    SpkNamed(a.scriptPublicKey, b.scriptPublicKey);
    CovenantNamed(a.covenant, b.covenant);
  }

  lemma SpkNamed(a: Spk, b: Spk)
    requires SpkData(a) == SpkData(b)
    ensures a == b
  {
    hide HexText;
    KeyFacts();
    var m, n := SpkData(a).members, SpkData(b).members;
    assert m[VERSION] == n[VERSION] && m[SCRIPT] == n[SCRIPT];
    HexInjective(a.script, b.script);
  }

  lemma CovenantNamed(a: Option<Binding>, b: Option<Binding>)
    requires CovenantData(a) == CovenantData(b)
    ensures a == b
  {
    hide HexText;
    KeyFacts();
    if a.Some? && b.Some? {
      var m, n := CovenantData(a).members, CovenantData(b).members;
      assert m[COVENANT_ID] == n[COVENANT_ID] && m[AUTHORIZING_INPUT] == n[AUTHORIZING_INPUT];
      HexInjective(a.value.covenantId, b.value.covenantId);
    }
  }

  /** Plain data names its transaction. */
  lemma TxNamed(a: Transaction, b: Transaction)
    requires TxMap(a) == TxMap(b)
    ensures a == b
  {
    hide HexText, InputMap, OutputMap;
    KeyFacts();
    var m, n := TxMap(a), TxMap(b);
    assert m[VERSION] == n[VERSION] && m[INPUTS] == n[INPUTS] && m[OUTPUTS] == n[OUTPUTS] && m[LOCK_TIME] == n[LOCK_TIME];
    assert m[SUBNETWORK_ID] == n[SUBNETWORK_ID] && m[GAS] == n[GAS] && m[PAYLOAD] == n[PAYLOAD] && m[STORAGE_MASS] == n[STORAGE_MASS];
    HexInjective(a.subnetworkId, b.subnetworkId);
    HexInjective(a.payload, b.payload);
    assert InputsData(a.inputs) == InputsData(b.inputs) && OutputsData(a.outputs) == OutputsData(b.outputs);
    forall k | 0 <= k < |a.inputs|
      ensures a.inputs[k] == b.inputs[k]
    {
      assert InputsData(a.inputs)[k] == InputsData(b.inputs)[k];
      InputNamed(a.inputs[k], b.inputs[k]);
    }
    forall k | 0 <= k < |a.outputs|
      ensures a.outputs[k] == b.outputs[k]
    {
      assert OutputsData(a.outputs)[k] == OutputsData(b.outputs)[k];
      OutputNamed(a.outputs[k], b.outputs[k]);
    }
  }

  lemma PlainInput(i: Input)
    requires ValidInput(i)
    ensures Plain(Object(InputMap(i)))
  {
    hide HexText;
    assert Plain(OutpointData(i.previousOutpoint));
  }

  lemma PlainOutput(o: Output, version: int, n: int)
    requires ValidOutput(o, version, n) && n <= 65535
    ensures Plain(Object(OutputMap(o)))
  {
    hide HexText;
    assert Plain(SpkData(o.scriptPublicKey)) && Plain(CovenantData(o.covenant));
  }

  lemma PlainTx(t: Transaction)
    requires ValidTransaction(t)
    ensures Plain(Object(TxMap(t)))
  {
    hide HexText, InputMap, OutputMap, ValidInput, ValidOutput;
    forall k | 0 <= k < |t.inputs|
      ensures Plain(InputsData(t.inputs)[k])
    {
      PlainInput(t.inputs[k]);
    }
    forall k | 0 <= k < |t.outputs|
      ensures Plain(OutputsData(t.outputs)[k])
    {
      PlainOutput(t.outputs[k], t.version, |t.inputs|);
    }
  }

  lemma ScrubKeepsValid(t: Transaction, seen: set<int>)
    requires ValidTransaction(t)
    ensures ValidTransaction(Scrubbed(t, seen))
  {
    forall n | 0 <= n < |t.inputs|
      ensures ValidInput(Scrubbed(t, seen).inputs[n])
    {
      assert ValidInput(t.inputs[n]);
    }
  }

  predicate Distinct(authorized: seq<int>) {
    forall i, j | 0 <= i < j < |authorized| :: authorized[i] != authorized[j]
  }

  lemma {:induction false} IndicesMean(authorized: seq<int>, inputCount: int)
    ensures IndicesChecked(authorized, inputCount).Ok?
       <==> Distinct(authorized) && forall k | 0 <= k < |authorized| :: 0 <= authorized[k] < inputCount
  {
    if authorized != [] {
      var n := |authorized| - 1;
      var before := authorized[..n];
      IndicesMean(before, inputCount);
      assert authorized[n] in before <==> exists k | 0 <= k < n :: authorized[k] == authorized[n];
    }
  }

  /** `after` is `before` with other signature scripts on the authorised inputs, and nothing else. */
  /** A script that pushes 65 bytes: a signature of 64, and the byte 1 that signs everything. */
  predicate PushesSignature(sig: Bytes) {
    |sig| == 66 && FirstPush(sig) == Ok(Push(sig[1..66], 66)) && sig[1..66][64] == 1
  }

  lemma SignatureIs(sig: Bytes)
    ensures OrdinarySignature(sig) <==> PushesSignature(sig)
  {
    if |sig| == 66 {
      assert sig[1..66][64] == sig[65];
    }
  }

  predicate OnlySigned(before: Transaction, after: Transaction, authorized: seq<int>) {
    && |after.inputs| == |before.inputs|
    && after == before.(inputs := after.inputs)
    && forall n | 0 <= n < |after.inputs| ::
         after.inputs[n] == if n in authorized then before.inputs[n].(signatureScript := after.inputs[n].signatureScript)
                            else before.inputs[n]
  }

  lemma ScrubbedMeans(before: Transaction, after: Transaction, authorized: seq<int>, seen: set<int>)
    requires seen == set i | i in authorized
    ensures Scrubbed(before, seen) == Scrubbed(after, seen) <==> OnlySigned(before, after, authorized)
  {
    var a, b := Scrubbed(before, seen), Scrubbed(after, seen);
    if a == b {
      forall n | 0 <= n < |after.inputs|
        ensures after.inputs[n] == if n in authorized then before.inputs[n].(signatureScript := after.inputs[n].signatureScript)
                                   else before.inputs[n]
      {
        assert a.inputs[n] == b.inputs[n];
      }
    }
    if OnlySigned(before, after, authorized) {
      assert a.inputs == b.inputs;
    }
  }

  /** The check passes exactly when both transactions are valid, the indices are distinct inputs, the transactions differ in
      nothing but the authorised signature scripts, and each of those is a 66-byte ordinary signature. */
  lemma CheckMeans(before: Transaction, after: Transaction, authorized: seq<int>)
    ensures AssertOnlyAuthorizedSignaturesChanged(before, after, authorized).Ok?
       <==> && ValidTransaction(before) && ValidTransaction(after)
            && Distinct(authorized) && (forall k | 0 <= k < |authorized| :: 0 <= authorized[k] < |before.inputs|)
            && OnlySigned(before, after, authorized)
            && (forall k | 0 <= k < |authorized| ::
                  0 <= authorized[k] < |after.inputs| && PushesSignature(after.inputs[authorized[k]].signatureScript))
  {
    hide Snapshot, TxMap, Scrubbed, OnlySigned, ValidTransaction, OrdinarySignature, PushesSignature, Distinct, Plain;
    forall sig: Bytes
      ensures OrdinarySignature(sig) <==> PushesSignature(sig)
    {
      SignatureIs(sig);
    }
    var seen := set i | i in authorized;
    var a, b := Scrubbed(before, seen), Scrubbed(after, seen);
    IndicesMean(authorized, |before.inputs|);
    ScrubbedMeans(before, after, authorized, seen);
    if ValidTransaction(before) && ValidTransaction(after) {
      ScrubKeepsValid(before, seen);
      ScrubKeepsValid(after, seen);
      PlainTx(a);
      PlainTx(b);
      SnapshotIsFaithful(Object(TxMap(a)), Object(TxMap(b)));
      if TxMap(a) == TxMap(b) {
        TxNamed(a, b);
      }
    }
  }
}
