/** A reader of transaction id preimages, written from their layout: field after field, each of its own width
    (scripts/core/src/transaction.ts:65-96). */
module TxReader {
  import opened Results
  import opened Bytes
  import opened Scripts
  import opened Tx
  import opened TxPreimage

  /** What was read, and the bytes after it. */
  datatype Scan<T> = Scan(value: T, rest: Bytes)

  function Take(b: Bytes, n: nat): Result<Scan<Bytes>> {
    if n <= |b| then Ok(Scan(b[..n], b[n..])) else Err(BYTE_LENGTH)
  }

  function TakeNumber(b: Bytes, width: nat): Result<Scan<nat>> {
    var digits :- Take(b, width);
    Ok(Scan(FromLe(digits.value), digits.rest))
  }

  /** An outpoint, an empty script and a sequence. */
  function ReadInput(b: Bytes): Result<Scan<Input>> {
    var id :- Take(b, 32);
    var index :- TakeNumber(id.rest, 4);
    var script :- TakeNumber(index.rest, 8);
    var _ :- Check(script.value == 0, BYTE_LENGTH);
    var sequence :- TakeNumber(script.rest, 8);
    Ok(Scan(Input(Outpoint(id.value, index.value), [], sequence.value, None, None), sequence.rest))
  }

  /** A flag, and after flag 1 the authorizing input and the covenant id. */
  function ReadCovenant(b: Bytes): Result<Scan<Option<Binding>>> {
    var flag :- TakeNumber(b, 1);
    if flag.value == 0 then Ok(Scan(None, flag.rest))
    else
      var _ :- Check(flag.value == 1, BYTE_LENGTH);
      var input :- TakeNumber(flag.rest, 2);
      var id :- Take(input.rest, 32);
      Ok(Scan(Some(Binding(id.value, input.value)), id.rest))
  }

  /** A value, a script with its version and length, and from version 1 on the covenant. */
  function ReadOutput(b: Bytes, version: nat): Result<Scan<Output>> {
    var value :- TakeNumber(b, 8);
    var scriptVersion :- TakeNumber(value.rest, 2);
    var length :- TakeNumber(scriptVersion.rest, 8);
    var script :- Take(length.rest, length.value);
    var covenant :- if version == 1 then ReadCovenant(script.rest) else Ok(Scan(None, script.rest));
    Ok(Scan(Output(value.value, Spk(scriptVersion.value, script.value), covenant.value), covenant.rest))
  }

  function ReadInputs(b: Bytes, n: nat): Result<Scan<seq<Input>>> {
    if n == 0 then Ok(Scan([], b))
    else
      var first :- ReadInput(b);
      var others :- ReadInputs(first.rest, n - 1);
      Ok(Scan([first.value] + others.value, others.rest))
  }

  function ReadOutputs(b: Bytes, version: nat, n: nat): Result<Scan<seq<Output>>> {
    if n == 0 then Ok(Scan([], b))
    else
      var first :- ReadOutput(b, version);
      var others :- ReadOutputs(first.rest, version, n - 1);
      Ok(Scan([first.value] + others.value, others.rest))
  }

  /** The transaction that a preimage describes. */
  function ReadTx(b: Bytes): Result<Transaction> {
    var version :- TakeNumber(b, 2);
    var inputCount :- TakeNumber(version.rest, 8);
    var inputs :- ReadInputs(inputCount.rest, inputCount.value);
    var outputCount :- TakeNumber(inputs.rest, 8);
    var outputs :- ReadOutputs(outputCount.rest, version.value, outputCount.value);
    ReadTail(version.value, inputs.value, outputs)
  }

  /** Lock time, subnetwork, gas, and a payload with its length to the end. */
  function ReadTail(version: nat, inputs: seq<Input>, outputs: Scan<seq<Output>>): Result<Transaction> {
    var lockTime :- TakeNumber(outputs.rest, 8);
    var subnetwork :- Take(lockTime.rest, 20);
    var gas :- TakeNumber(subnetwork.rest, 8);
    var length :- TakeNumber(gas.rest, 8);
    var payload :- Take(length.rest, length.value);
    var _ :- Check(payload.rest == [], BYTE_LENGTH);
    Ok(Transaction(version, inputs, outputs.value, lockTime.value, subnetwork.value, gas.value, payload.value, 0))
  }

  // ---------------------------------------------------------------- reading back what is written

  lemma Taken(a: Bytes, rest: Bytes)
    ensures Take(a + rest, |a|) == Ok(Scan(a, rest))
  {
    assert (a + rest)[..|a|] == a && (a + rest)[|a|..] == rest;
  }

  lemma NumberTaken(n: nat, width: nat, rest: Bytes)
    requires n < Pow256(width)
    ensures TakeNumber(Le(n, width) + rest, width) == Ok(Scan(n, rest))
  {
    hide Le;
    Taken(Le(n, width), rest);
    FromLeOfLe(n, width);
  }

  /** What the id commits to of an input. */
  function Bare(i: Input): Input {
    Input(i.previousOutpoint, [], i.sequence, None, None)
  }

  lemma InputReads(i: Input, rest: Bytes)
    requires ValidInput(i)
    ensures ReadInput(InputBytes(i) + rest) == Ok(Scan(Bare(i), rest))
  {
    hide Le, Take, TakeNumber;
    Pow256Values();
    var id, index, none, sequence := i.previousOutpoint.transactionId, Le(i.previousOutpoint.index, 4), Le(0, 8), Le(i.sequence, 8);
    Join(id, index + (none + sequence), rest);
    Join(index, none + sequence, rest);
    Join(none, sequence, rest);
    Taken(id, index + (none + (sequence + rest)));
    NumberTaken(i.previousOutpoint.index, 4, none + (sequence + rest));
    NumberTaken(0, 8, sequence + rest);
    NumberTaken(i.sequence, 8, rest);
  }

  lemma FlagTaken(flag: Byte, rest: Bytes)
    ensures TakeNumber([flag] + rest, 1) == Ok(Scan(flag as nat, rest))
  {
    assert ([flag] + rest)[..1] == [flag] && ([flag] + rest)[1..] == rest;
    assert [flag][1..] == [];
    assert FromLe([flag]) == flag + 256 * FromLe([]);
  }

  lemma CovenantReads(c: Option<Binding>, rest: Bytes)
    requires c.Some? ==> 0 <= c.value.authorizingInput <= 65535 && |c.value.covenantId| == 32
    ensures ReadCovenant(CovenantBytes(c) + rest) == Ok(Scan(c, rest))
  {
    hide Le, Take, TakeNumber;
    Pow256Values();
    match c {
      case None => FlagTaken(0, rest);
      case Some(b) =>
        var input := Le(b.authorizingInput, 2);
        Join([1], input + b.covenantId, rest);
        Join(input, b.covenantId, rest);
        FlagTaken(1, input + (b.covenantId + rest));
        NumberTaken(b.authorizingInput, 2, b.covenantId + rest);
        Taken(b.covenantId, rest);
    }
  }

  lemma OutputReads(o: Output, version: nat, n: nat, rest: Bytes)
    requires ValidOutput(o, version, n) && Sized(o) && n <= 65535
    ensures ReadOutput(OutputBytes(o, version, n) + rest, version) == Ok(Scan(o, rest))
  {
    hide Le, Take, TakeNumber, CovenantBytes, ReadCovenant;
    Pow256Values();
    var s := o.scriptPublicKey.script;
    var c := if version == 1 then CovenantBytes(o.covenant) else [];
    OutputSplit(o, version, n, rest, c);
    NumberTaken(o.value, 8, Le(o.scriptPublicKey.version, 2) + (Le(|s|, 8) + (s + (c + rest))));
    NumberTaken(o.scriptPublicKey.version, 2, Le(|s|, 8) + (s + (c + rest)));
    NumberTaken(|s|, 8, s + (c + rest));
    Taken(s, c + rest);
    if version == 1 {
      CovenantReads(o.covenant, rest);
    } else {
      assert c + rest == rest;
    }
  }

  function BareInputs(inputs: seq<Input>): (bare: seq<Input>)
    ensures |bare| == |inputs|
  {
    seq(|inputs|, k requires 0 <= k < |inputs| => Bare(inputs[k]))
  }

  lemma {:induction false} InputsRead(inputs: seq<Input>, rest: Bytes)
    requires forall k | 0 <= k < |inputs| :: ValidInput(inputs[k])
    ensures ReadInputs(InputsBytes(inputs) + rest, |inputs|) == Ok(Scan(BareInputs(inputs), rest))
  {
    hide InputBytes, ReadInput, Bare;
    if inputs == [] {
      assert InputsBytes(inputs) + rest == rest;
    } else {
      Join(InputBytes(inputs[0]), InputsBytes(inputs[1..]), rest);
      InputReads(inputs[0], InputsBytes(inputs[1..]) + rest);
      InputsRead(inputs[1..], rest);
      assert [Bare(inputs[0])] + BareInputs(inputs[1..]) == BareInputs(inputs);
    }
  }

  lemma {:induction false} OutputsRead(outputs: seq<Output>, version: nat, n: nat, rest: Bytes)
    requires forall k | 0 <= k < |outputs| :: ValidOutput(outputs[k], version, n) && Sized(outputs[k])
    requires n <= 65535
    ensures ReadOutputs(OutputsBytes(outputs, version, n) + rest, version, |outputs|) == Ok(Scan(outputs, rest))
  {
    hide OutputBytes, ReadOutput, ValidOutput;
    if outputs == [] {
      assert OutputsBytes(outputs, version, n) + rest == rest;
    } else {
      Join(OutputBytes(outputs[0], version, n), OutputsBytes(outputs[1..], version, n), rest);
      OutputReads(outputs[0], version, n, OutputsBytes(outputs[1..], version, n) + rest);
      OutputsRead(outputs[1..], version, n, rest);
      assert [outputs[0]] + outputs[1..] == outputs;
    }
  }

  /** A transaction as its id commits to it: no signature scripts, budgets or storage mass, and the payload only where the id
      includes it. */
  function Committed(t: Transaction, emptyPayload: bool): Transaction {
    t.(inputs := BareInputs(t.inputs), payload := if emptyPayload then [] else t.payload, storageMass := 0)
  }

  lemma TailReads(t: Transaction, emptyPayload: bool, version: nat, inputs: seq<Input>, outputs: seq<Output>)
    requires ValidTransaction(t)
    ensures ReadTail(version, inputs, Scan(outputs, TailBytes(t, emptyPayload)))
         == Ok(Transaction(version, inputs, outputs, t.lockTime, t.subnetworkId, t.gas,
                           if emptyPayload then [] else t.payload, 0))
  {
    hide Le, Take, TakeNumber, ValidInput, ValidOutput;
    Pow256Values();
    var payload := CommittedPayload(t, emptyPayload);
    NumberTaken(t.lockTime, 8, t.subnetworkId + (Le(t.gas, 8) + (Le(|payload|, 8) + payload)));
    Taken(t.subnetworkId, Le(t.gas, 8) + (Le(|payload|, 8) + payload));
    NumberTaken(t.gas, 8, Le(|payload|, 8) + payload);
    NumberTaken(|payload|, 8, payload);
    assert payload + [] == payload;
    Taken(payload, []);
  }

  /** The preimage of every encodable transaction reads back as what its id commits to. */
  lemma PreimageReads(t: Transaction, emptyPayload: bool)
    requires Encodable(t)
    ensures Preimage(t, emptyPayload).Ok?
    ensures ReadTx(Preimage(t, emptyPayload).value) == Ok(Committed(t, emptyPayload))
  {
    hide Le, TakeNumber, ReadInputs, ReadOutputs, ReadTail, InputsBytes, OutputsBytes, TailBytes, ValidInput, ValidOutput;
    Pow256Values();
    var outs, tail := OutputsBytes(t.outputs, t.version, |t.inputs|), TailBytes(t, emptyPayload);
    var after := Le(|t.outputs|, 8) + (outs + tail);
    NumberTaken(t.version, 2, Le(|t.inputs|, 8) + (InputsBytes(t.inputs) + after));
    NumberTaken(|t.inputs|, 8, InputsBytes(t.inputs) + after);
    InputsRead(t.inputs, after);
    NumberTaken(|t.outputs|, 8, outs + tail);
    OutputsRead(t.outputs, t.version, |t.inputs|, tail);
    TailReads(t, emptyPayload, t.version, BareInputs(t.inputs), t.outputs);
  }
}
