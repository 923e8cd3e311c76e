/** The transaction-id preimage is uniquely decodable (scripts/core/src/transaction.ts:33-82). */
module TxPreimage {
  import opened Results
  import opened Bytes
  import opened Scripts
  import opened Tx

  // ---------------------------------------------------------------- the preimage

  function InputBytes(i: Input): Bytes
    requires ValidInput(i)
  {
    i.previousOutpoint.transactionId + (Le(i.previousOutpoint.index, 4) + (Le(0, 8) + Le(i.sequence, 8)))
  }

  function CovenantBytes(c: Option<Binding>): Bytes
    requires c.Some? ==> c.value.authorizingInput >= 0
  {
    match c
    case None => [0]
    case Some(b) => [1] + (Le(b.authorizingInput, 2) + b.covenantId)
  }

  /** The script length must fit its eight-byte count. */
  predicate Sized(o: Output) {
    |o.scriptPublicKey.script| < 0x1_0000_0000_0000_0000
  }

  function OutputBytes(o: Output, version: int, inputCount: int): Bytes
    requires ValidOutput(o, version, inputCount)
  {
    Le(o.value, 8) + (Le(o.scriptPublicKey.version, 2) + (Le(|o.scriptPublicKey.script|, 8) + (o.scriptPublicKey.script
    + if version == 1 then CovenantBytes(o.covenant) else [])))
  }

  function InputsBytes(inputs: seq<Input>): Bytes
    requires forall k | 0 <= k < |inputs| :: ValidInput(inputs[k])
  {
    if inputs == [] then [] else InputBytes(inputs[0]) + InputsBytes(inputs[1..])
  }

  function OutputsBytes(outputs: seq<Output>, version: int, inputCount: int): Bytes
    requires forall k | 0 <= k < |outputs| :: ValidOutput(outputs[k], version, inputCount)
  {
    if outputs == [] then [] else OutputBytes(outputs[0], version, inputCount) + OutputsBytes(outputs[1..], version, inputCount)
  }

  function CommittedPayload(t: Transaction, emptyPayload: bool): Bytes {
    if emptyPayload then [] else t.payload
  }

  function TailBytes(t: Transaction, emptyPayload: bool): Bytes
    requires ValidTransaction(t)
  {
    var payload := CommittedPayload(t, emptyPayload);
    Le(t.lockTime, 8) + (t.subnetworkId + (Le(t.gas, 8) + (Le(|payload|, 8) + payload)))
  }

  predicate Encodable(t: Transaction) {
    ValidTransaction(t) && forall k | 0 <= k < |t.outputs| :: Sized(t.outputs[k])
  }

  function Preimage(t: Transaction, emptyPayload: bool): Result<Bytes> {
    var _ :- Check(ValidTransaction(t), INTEGER_RANGE);
    var _ :- Check(Encodable(t), INTEGER_RANGE);
    Ok(Le(t.version, 2) + (Le(|t.inputs|, 8) + (InputsBytes(t.inputs) + (Le(|t.outputs|, 8)
       + (OutputsBytes(t.outputs, t.version, |t.inputs|) + TailBytes(t, emptyPayload))))))
  }

  /** The source's passes over the inputs and the outputs, pushing parts. */
  method BuildPreimage(t: Transaction, emptyPayload: bool) returns (r: Result<Bytes>)
    ensures r == Preimage(t, emptyPayload)
  {
    hide InputBytes, OutputBytes, TailBytes;
    var _ :- Check(ValidTransaction(t), INTEGER_RANGE);
    var _ :- Check(forall k | 0 <= k < |t.outputs| :: Sized(t.outputs[k]), INTEGER_RANGE);
    var ins: Bytes, outs: Bytes := [], [];
    for i := 0 to |t.inputs|
      invariant ins + InputsBytes(t.inputs[i..]) == InputsBytes(t.inputs)
    {
      assert t.inputs[i..][1..] == t.inputs[i + 1..];
      assert ins + (InputBytes(t.inputs[i]) + InputsBytes(t.inputs[i + 1..]))
          == ins + InputBytes(t.inputs[i]) + InputsBytes(t.inputs[i + 1..]);
      ins := ins + InputBytes(t.inputs[i]);
    }
    for i := 0 to |t.outputs|
      invariant outs + OutputsBytes(t.outputs[i..], t.version, |t.inputs|) == OutputsBytes(t.outputs, t.version, |t.inputs|)
    {
      assert t.outputs[i..][1..] == t.outputs[i + 1..];
      var o := OutputBytes(t.outputs[i], t.version, |t.inputs|);
      ghost var rest := OutputsBytes(t.outputs[i + 1..], t.version, |t.inputs|);
      assert outs + (o + rest) == outs + o + rest;
      outs := outs + o;
    }
    assert ins == InputsBytes(t.inputs) && outs == OutputsBytes(t.outputs, t.version, |t.inputs|);
    r := Ok(Le(t.version, 2) + (Le(|t.inputs|, 8) + (ins + (Le(|t.outputs|, 8) + (outs + TailBytes(t, emptyPayload))))));
  }

  // ---------------------------------------------------------------- reading back

  lemma Number(n: nat, m: nat, width: nat, a: Bytes, b: Bytes)
    requires n < Pow256(width) && m < Pow256(width) && Le(n, width) + a == Le(m, width) + b
    ensures n == m && a == b
  {
    hide Le;
    Halves(Le(n, width), a, Le(m, width), b);
    LeInjective(n, m, width);
  }

  lemma Join(a: Bytes, b: Bytes, rest: Bytes)
    ensures (a + b) + rest == a + (b + rest)
  {
  }

  /** What the id commits to of an input: its outpoint and its sequence. */
  predicate SameInput(a: Input, b: Input) {
    a.previousOutpoint == b.previousOutpoint && a.sequence == b.sequence
  }

  lemma InputRead(a: Input, b: Input, ra: Bytes, rb: Bytes)
    requires ValidInput(a) && ValidInput(b) && InputBytes(a) + ra == InputBytes(b) + rb
    ensures SameInput(a, b) && ra == rb
  {
    hide Le;
    Pow256Values();
    Halves(InputBytes(a), ra, InputBytes(b), rb);
    Halves(a.previousOutpoint.transactionId, Le(a.previousOutpoint.index, 4) + (Le(0, 8) + Le(a.sequence, 8)),
           b.previousOutpoint.transactionId, Le(b.previousOutpoint.index, 4) + (Le(0, 8) + Le(b.sequence, 8)));
    Number(a.previousOutpoint.index, b.previousOutpoint.index, 4, Le(0, 8) + Le(a.sequence, 8), Le(0, 8) + Le(b.sequence, 8));
    Halves(Le(0, 8), Le(a.sequence, 8), Le(0, 8), Le(b.sequence, 8));
    LeInjective(a.sequence, b.sequence, 8);
  }

  lemma CovenantRead(a: Option<Binding>, b: Option<Binding>, ra: Bytes, rb: Bytes)
    requires a.Some? ==> 0 <= a.value.authorizingInput <= 65535 && |a.value.covenantId| == 32
    requires b.Some? ==> 0 <= b.value.authorizingInput <= 65535 && |b.value.covenantId| == 32
    requires CovenantBytes(a) + ra == CovenantBytes(b) + rb
    ensures a == b && ra == rb
  {
    hide Le;
    Pow256Values();
    var x, y := CovenantBytes(a), CovenantBytes(b);
    assert (x + ra)[0] == x[0] && (y + rb)[0] == y[0];
    if a.Some? {
      var ta, tb := Le(a.value.authorizingInput, 2) + a.value.covenantId, Le(b.value.authorizingInput, 2) + b.value.covenantId;
      Halves(x, ra, y, rb);
      Halves([1], ta, [1], tb);
      Number(a.value.authorizingInput, b.value.authorizingInput, 2, a.value.covenantId, b.value.covenantId);
    } else {
      Halves(x, ra, y, rb);
    }
  }

  lemma OutputRead(a: Output, b: Output, version: int, n: int, ra: Bytes, rb: Bytes)
    requires ValidOutput(a, version, n) && ValidOutput(b, version, n) && Sized(a) && Sized(b) && n <= 65535
    requires OutputBytes(a, version, n) + ra == OutputBytes(b, version, n) + rb
    ensures a == b && ra == rb
  {
    hide Le, CovenantBytes;
    Pow256Values();
    var ca, cb := if version == 1 then CovenantBytes(a.covenant) else [], if version == 1 then CovenantBytes(b.covenant) else [];
    var sa, sb := a.scriptPublicKey.script, b.scriptPublicKey.script;
    OutputSplit(a, version, n, ra, ca);
    OutputSplit(b, version, n, rb, cb);
    Number(a.value, b.value, 8, Le(a.scriptPublicKey.version, 2) + (Le(|sa|, 8) + (sa + (ca + ra))),
           Le(b.scriptPublicKey.version, 2) + (Le(|sb|, 8) + (sb + (cb + rb))));
    Number(a.scriptPublicKey.version, b.scriptPublicKey.version, 2, Le(|sa|, 8) + (sa + (ca + ra)), Le(|sb|, 8) + (sb + (cb + rb)));
    Number(|sa|, |sb|, 8, sa + (ca + ra), sb + (cb + rb));
    Halves(sa, ca + ra, sb, cb + rb);
    if version == 1 {
      CovenantRead(a.covenant, b.covenant, ra, rb);
    } else {
      assert ca + ra == ra && cb + rb == rb;
    }
  }

  lemma OutputSplit(o: Output, version: int, n: int, rest: Bytes, c: Bytes)
    requires ValidOutput(o, version, n) && c == (if version == 1 then CovenantBytes(o.covenant) else [])
    ensures OutputBytes(o, version, n) + rest
         == Le(o.value, 8) + (Le(o.scriptPublicKey.version, 2) + (Le(|o.scriptPublicKey.script|, 8)
            + (o.scriptPublicKey.script + (c + rest))))
  {
    hide Le, CovenantBytes;
    var s := o.scriptPublicKey.script;
    Join(s, c, rest);
    Join(Le(|s|, 8), s + c, rest);
    Join(Le(o.scriptPublicKey.version, 2), Le(|s|, 8) + (s + c), rest);
    Join(Le(o.value, 8), Le(o.scriptPublicKey.version, 2) + (Le(|s|, 8) + (s + c)), rest);
  }

  lemma {:induction false} InputsRead(a: seq<Input>, b: seq<Input>, ra: Bytes, rb: Bytes)
    requires forall k | 0 <= k < |a| :: ValidInput(a[k])
    requires forall k | 0 <= k < |b| :: ValidInput(b[k])
    requires |a| == |b| && InputsBytes(a) + ra == InputsBytes(b) + rb
    ensures (forall k | 0 <= k < |a| :: SameInput(a[k], b[k])) && ra == rb
  {
    hide InputBytes, SameInput;
    if a == [] {
      assert InputsBytes(a) + ra == ra && InputsBytes(b) + rb == rb;
    } else {
      Join(InputBytes(a[0]), InputsBytes(a[1..]), ra);
      Join(InputBytes(b[0]), InputsBytes(b[1..]), rb);
      InputRead(a[0], b[0], InputsBytes(a[1..]) + ra, InputsBytes(b[1..]) + rb);
      InputsRead(a[1..], b[1..], ra, rb);
      forall k | 0 <= k < |a|
        ensures SameInput(a[k], b[k])
      {
        assert k > 0 ==> SameInput(a[1..][k - 1], b[1..][k - 1]);
      }
    }
  }

  lemma {:induction false} OutputsRead(a: seq<Output>, b: seq<Output>, version: int, n: int, ra: Bytes, rb: Bytes)
    requires forall k | 0 <= k < |a| :: ValidOutput(a[k], version, n) && Sized(a[k])
    requires forall k | 0 <= k < |b| :: ValidOutput(b[k], version, n) && Sized(b[k])
    requires |a| == |b| && n <= 65535 && OutputsBytes(a, version, n) + ra == OutputsBytes(b, version, n) + rb
    ensures a == b && ra == rb
  {
    hide OutputBytes, ValidOutput;
    if a == [] {
      assert OutputsBytes(a, version, n) + ra == ra && OutputsBytes(b, version, n) + rb == rb;
    } else {
      Join(OutputBytes(a[0], version, n), OutputsBytes(a[1..], version, n), ra);
      Join(OutputBytes(b[0], version, n), OutputsBytes(b[1..], version, n), rb);
      OutputRead(a[0], b[0], version, n, OutputsBytes(a[1..], version, n) + ra, OutputsBytes(b[1..], version, n) + rb);
      OutputsRead(a[1..], b[1..], version, n, ra, rb);
      assert a == [a[0]] + a[1..] && b == [b[0]] + b[1..];
    }
  }

  /** Everything that the id commits to. */
  predicate SameCommitment(a: Transaction, b: Transaction, emptyPayload: bool) {
    && a.version == b.version
    && |a.inputs| == |b.inputs| && (forall k | 0 <= k < |a.inputs| :: SameInput(a.inputs[k], b.inputs[k]))
    && a.outputs == b.outputs
    && a.lockTime == b.lockTime && a.subnetworkId == b.subnetworkId && a.gas == b.gas
    && CommittedPayload(a, emptyPayload) == CommittedPayload(b, emptyPayload)
  }

  lemma TailRead(a: Transaction, b: Transaction, emptyPayload: bool)
    requires ValidTransaction(a) && ValidTransaction(b) && TailBytes(a, emptyPayload) == TailBytes(b, emptyPayload)
    ensures a.lockTime == b.lockTime && a.subnetworkId == b.subnetworkId && a.gas == b.gas
    ensures CommittedPayload(a, emptyPayload) == CommittedPayload(b, emptyPayload)
  {
    hide Le;
    Pow256Values();
    var pa, pb := CommittedPayload(a, emptyPayload), CommittedPayload(b, emptyPayload);
    Number(a.lockTime, b.lockTime, 8, a.subnetworkId + (Le(a.gas, 8) + (Le(|pa|, 8) + pa)),
           b.subnetworkId + (Le(b.gas, 8) + (Le(|pb|, 8) + pb)));
    Halves(a.subnetworkId, Le(a.gas, 8) + (Le(|pa|, 8) + pa), b.subnetworkId, Le(b.gas, 8) + (Le(|pb|, 8) + pb));
    Number(a.gas, b.gas, 8, Le(|pa|, 8) + pa, Le(|pb|, 8) + pb);
    Number(|pa|, |pb|, 8, pa, pb);
  }

  lemma {:induction false} InputsWritten(a: seq<Input>, b: seq<Input>)
    requires forall k | 0 <= k < |a| :: ValidInput(a[k])
    requires forall k | 0 <= k < |b| :: ValidInput(b[k])
    requires |a| == |b| && forall k | 0 <= k < |a| :: SameInput(a[k], b[k])
    ensures InputsBytes(a) == InputsBytes(b)
  {
    if a != [] {
      assert SameInput(a[0], b[0]);
      InputsWritten(a[1..], b[1..]);
    }
  }

  /** Two transactions have one id preimage exactly when they agree on version, outpoints, sequences, outputs with their covenant
      bindings, lock time, subnetwork, gas and, where it is included, payload. Nothing else is committed. */
  lemma PreimageCommits(a: Transaction, b: Transaction, emptyPayload: bool)
    requires Encodable(a) && Encodable(b)
    ensures Preimage(a, emptyPayload).Ok? && Preimage(b, emptyPayload).Ok?
    ensures Preimage(a, emptyPayload) == Preimage(b, emptyPayload) <==> SameCommitment(a, b, emptyPayload)
  {
    hide Le, InputsBytes, OutputsBytes, TailBytes, SameInput, ValidInput, ValidOutput;
    Pow256Values();
    var ia, ib := InputsBytes(a.inputs), InputsBytes(b.inputs);
    var oa, ob := OutputsBytes(a.outputs, a.version, |a.inputs|), OutputsBytes(b.outputs, b.version, |b.inputs|);
    var ta, tb := TailBytes(a, emptyPayload), TailBytes(b, emptyPayload);
    if Preimage(a, emptyPayload) == Preimage(b, emptyPayload) {
      Number(a.version, b.version, 2, Le(|a.inputs|, 8) + (ia + (Le(|a.outputs|, 8) + (oa + ta))),
             Le(|b.inputs|, 8) + (ib + (Le(|b.outputs|, 8) + (ob + tb))));
      Number(|a.inputs|, |b.inputs|, 8, ia + (Le(|a.outputs|, 8) + (oa + ta)), ib + (Le(|b.outputs|, 8) + (ob + tb)));
      InputsRead(a.inputs, b.inputs, Le(|a.outputs|, 8) + (oa + ta), Le(|b.outputs|, 8) + (ob + tb));
      Number(|a.outputs|, |b.outputs|, 8, oa + ta, ob + tb);
      OutputsRead(a.outputs, b.outputs, a.version, |a.inputs|, ta, tb);
      TailRead(a, b, emptyPayload);
    }
    if SameCommitment(a, b, emptyPayload) {
      InputsWritten(a.inputs, b.inputs);
      TailWritten(a, b, emptyPayload);
    }
  }

  lemma TailWritten(a: Transaction, b: Transaction, emptyPayload: bool)
    requires ValidTransaction(a) && ValidTransaction(b) && SameCommitment(a, b, emptyPayload)
    ensures TailBytes(a, emptyPayload) == TailBytes(b, emptyPayload)
  {
    hide ValidInput, ValidOutput, SameInput;
  }
}
