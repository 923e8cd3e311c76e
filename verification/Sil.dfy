/** What the three SilverScript templates share: aborting evaluation, integer reads, introspection opcodes. */
module Sil {
  import opened Results
  import opened Bytes
  import opened Layout
  import opened Scripts
  import opened Tx
  import opened Frames

  /** A script expression: a value, or failure of the whole script. */
  datatype Run<+T> = Val(value: T) | Abort {

    predicate IsFailure() { Abort? }

    function PropagateFailure<U>(): Run<U>
      requires Abort?
    {
      Abort
    }

    function Extract(): T
      requires Val?
    {
      value
    }
  }

  function Require(b: bool): Run<()> {
    if b then Val(()) else Abort
  }

  // ---------------------------------------------------------------- the spending context

  /** An output being spent, as the node hands it to the script. */
  datatype Utxo = Utxo(value: int, spk: Spk, daa: int, covenantId: Option<Bytes>)

  /** The transaction, the outputs it spends, and the node's selected-chain commitment accessor. */
  datatype Env = Env(activeInput: int, tx: Transaction, utxos: seq<Utxo>, seqCommit: Bytes -> Option<Digest>)

  predicate Matched(e: Env) {
    |e.utxos| == |e.tx.inputs| > 0
  }

  /** What a spend leads to. */
  datatype Terminal = EMPTY | PAID | REFUNDED
  datatype Verdict = Continue(to: Module, ledger: Bytes) | Final(terminal: Terminal)

  function CovenantIdOf(o: Output): Bytes {
    match o.covenant
    case None => ZERO
    case Some(b) => b.covenantId
  }

  /** Ascending indices at which a flag is set. */
  function Where(flags: seq<bool>): (ix: seq<nat>)
    ensures forall k | 0 <= k < |ix| :: ix[k] < |flags|
  {
    if flags == [] then []
    else
      var n := |flags| - 1;
      Where(flags[..n]) + (if flags[n] then [n] else [])
  }

  function AuthOutputs(tx: Transaction, input: int): seq<nat> {
    Where(seq(|tx.outputs|, i requires 0 <= i < |tx.outputs| =>
      tx.outputs[i].covenant.Some? && tx.outputs[i].covenant.value.authorizingInput == input))
  }

  function CovOutputs(tx: Transaction, id: Bytes): seq<nat> {
    Where(seq(|tx.outputs|, i requires 0 <= i < |tx.outputs| =>
      tx.outputs[i].covenant.Some? && tx.outputs[i].covenant.value.covenantId == id))
  }

  function CovInputs(utxos: seq<Utxo>, id: Bytes): seq<nat> {
    Where(seq(|utxos|, i requires 0 <= i < |utxos| => utxos[i].covenantId == Some(id)))
  }

  lemma {:induction false} WhereNone(flags: seq<bool>)
    ensures Where(flags) == [] <==> forall i | 0 <= i < |flags| :: !flags[i]
  {
    if flags != [] {
      var n := |flags| - 1;
      WhereNone(flags[..n]);
      assert forall i | 0 <= i < n :: flags[..n][i] == flags[i];
      if !flags[n] {
        assert Where(flags) == Where(flags[..n]);
      }
    }
  }

  lemma {:induction false} WhereFirst(flags: seq<bool>)
    ensures Where(flags) == [0] <==> |flags| > 0 && flags[0] && forall i | 0 < i < |flags| :: !flags[i]
  {
    if flags != [] {
      var n := |flags| - 1;
      WhereNone(flags[..n]);
      WhereFirst(flags[..n]);
      if n > 0 && flags[n] {
        var w := Where(flags[..n]) + [n];
        assert w[|w| - 1] == n;
      }
    }
  }

  // ---------------------------------------------------------------- reads and edits of the ledger bytes

  predicate I64(n: int) { -0x8000_0000_0000_0000 <= n < 0x8000_0000_0000_0000 }

  function Int(n: int): Run<int> {
    if I64(n) then Val(n) else Abort
  }

  function U32(b: Bytes, at: int): Run<nat> {
    if 0 <= at <= |b| - 4 && b[at + 3] < 128 then Val(FromLe(b[at..at + 4])) else Abort
  }

  function U63(b: Bytes, at: int): Run<nat> {
    if 0 <= at <= |b| - 8 && b[at + 7] < 128 then Val(FromLe(b[at..at + 8])) else Abort
  }

  function Slice(b: Bytes, lo: int, hi: int): Run<Bytes> {
    if 0 <= lo <= hi <= |b| then Val(b[lo..hi]) else Abort
  }

  function Set4(b: Bytes, at: int, value: int): Run<Bytes> {
    var _ :- Require(0 <= at <= |b| - 4);
    var _ :- Require(0 <= value <= 0x7fff_ffff);
    Val(b[..at] + Le(value, 4) + b[at + 4..])
  }

  function PushLedger(value: Bytes): Run<Bytes> {
    var n := |value|;
    var _ :- Require(HEADER_BYTES <= n <= HEADER_BYTES + MAX_PURCHASES * RECORD_BYTES);
    var prefix := if n <= 255 then [0x4c] + Le(n, 4)[..1] else [0x4d] + Le(n, 4)[..2];
    Val(prefix + value)
  }

  function ScriptFor(value: Bytes, tail: Bytes): Run<Bytes> {
    var push :- PushLedger(value);
    Val([0x6b] + push + tail)
  }

  /** The template's own push of the ledger is the client's. */
  lemma ScriptForIsLedgerScript(value: Bytes, tail: Bytes)
    ensures ScriptFor(value, tail).Val? <==> LedgerSized(value)
    ensures LedgerSized(value) ==> ScriptFor(value, tail) == Val(LedgerScript(value, tail))
  {
    if LedgerSized(value) {
      var n := |value|;
      assert Le(n, 4) == [n % 256] + Le(n / 256, 3);
      assert Le(n / 256, 3) == [n / 256 % 256] + Le(n / 256 / 256, 2);
      assert Le(n, 2) == [n % 256] + Le(n / 256, 1);
      assert Le(n / 256, 1) == [n / 256 % 256] + Le(n / 256 / 256, 0);
      assert Le(n, 4)[..1] == [n % 256];
      assert Le(n, 4)[..2] == Le(n, 2);
      assert (if n <= 255 then [0x4c] + Le(n, 4)[..1] else [0x4d] + Le(n, 4)[..2]) == PushHeader(n);
    }
  }

  /** The program tail that the witness carries, tied to the spent output by the redeem-script hash. */
  function AuthenticatedTail(h: Hashes, e: Env, ledger: Bytes, tailBytes: int): Run<Bytes>
    requires Matched(e)
  {
    var sig := e.tx.inputs[0].signatureScript;
    var _ :- Require(0 < tailBytes <= 1_000_000 && tailBytes < |sig|);
    var tail := sig[|sig| - tailBytes..];
    var _ :- Require(tail[0] == 0x6c);
    var script :- ScriptFor(ledger, tail);
    var _ :- Require(e.utxos[0].spk == P2sh(h.blake2b(script)));
    Val(tail)
  }

  // ---------------------------------------------------------------- fees, payments, successors

  function TotalIn(utxos: seq<Utxo>): int {
    if utxos == [] then 0 else TotalIn(utxos[..|utxos| - 1]) + utxos[|utxos| - 1].value
  }

  predicate AmountsPayable(e: Env) {
    && (forall i | 0 <= i < |e.utxos| :: Payable(e.utxos[i].value))
    && (forall i | 0 <= i < |e.tx.outputs| :: Payable(e.tx.outputs[i].value))
  }

  /** The fee witness is the real fee, in range, over amounts in range. */
  predicate FeeMatches(e: Env, fee: int) {
    && 0 < fee <= MAX_PAY_FEE
    && AmountsPayable(e)
    && TotalIn(e.utxos) - TotalOut(e.tx.outputs) == fee
  }

  /** The two summing loops of `checkFee`; sums of at most 9 and 34 amounts cannot overflow. */
  method CheckFee(e: Env, fee: int) returns (ok: bool)
    ensures ok == FeeMatches(e, fee)
  {
    if !(0 < fee <= MAX_PAY_FEE) {
      return false;
    }
    var totalIn, totalOut := 0, 0;
    for i := 0 to |e.utxos|
      invariant totalIn == TotalIn(e.utxos[..i])
      invariant forall k | 0 <= k < i :: Payable(e.utxos[k].value)
    {
      if !Payable(e.utxos[i].value) {
        return false;
      }
      assert e.utxos[..i + 1][..i] == e.utxos[..i];
      totalIn := totalIn + e.utxos[i].value;
    }
    assert e.utxos[..|e.utxos|] == e.utxos;
    for i := 0 to |e.tx.outputs|
      invariant totalOut == TotalOut(e.tx.outputs[..i])
      invariant forall k | 0 <= k < i :: Payable(e.tx.outputs[k].value)
    {
      if !Payable(e.tx.outputs[i].value) {
        return false;
      }
      assert e.tx.outputs[..i + 1][..i] == e.tx.outputs[..i];
      totalOut := totalOut + e.tx.outputs[i].value;
    }
    assert e.tx.outputs[..|e.tx.outputs|] == e.tx.outputs;
    ok := totalIn - totalOut == fee;
  }

  /** `ordinary`: output `index` pays exactly `amount` to `recipient` outside every covenant. */
  predicate Ordinary(e: Env, index: int, amount: int, recipient: Bytes) {
    && Payable(amount)
    && 0 <= index < |e.tx.outputs|
    && e.tx.outputs[index].value == amount
    && e.tx.outputs[index].scriptPublicKey == P2pk(recipient)
    && CovenantIdOf(e.tx.outputs[index]) == ZERO
  }

  predicate NoFamily(e: Env, id: Bytes) {
    AuthOutputs(e.tx, 0) == [] && CovOutputs(e.tx, id) == []
  }

  /** `terminal`: exactly `count` outputs, none of them in the round's family. */
  predicate TerminalShape(e: Env, id: Bytes, count: int) {
    && |e.tx.outputs| == count > 0
    && NoFamily(e, id)
    && CovenantIdOf(e.tx.outputs[0]) == ZERO
  }

  /** `successor`: output 0 alone continues the family, with this value and ledger under this tail. */
  function Successor(h: Hashes, e: Env, id: Bytes, next: Bytes, tail: Bytes, value: int): Run<()> {
    var _ :- Require(|tail| > 0 && tail[0] == 0x6c);
    var _ :- Require(AuthOutputs(e.tx, 0) == [0]);
    var _ :- Require(CovOutputs(e.tx, id) == [0]);
    var _ :- Require(|e.tx.outputs| > 0 && CovenantIdOf(e.tx.outputs[0]) == id);
    var _ :- Require(e.tx.outputs[0].value == value);
    var script :- ScriptFor(next, tail);
    var _ :- Require(e.tx.outputs[0].scriptPublicKey == P2sh(h.blake2b(script)));
    Val(())
  }

  function TemplateHash(h: Hashes, tail: Bytes): Digest {
    h.blake3(TemplateBytes(tail))
  }

  /** The checks every entry point starts with; the result is the authenticated tail. */
  function Entry(h: Hashes, e: Env, ledger: Bytes, outputLimit: int, tailBytes: int, actorPk: Bytes): Run<Bytes>
    requires Matched(e)
  {
    var _ :- Require(e.activeInput == 0 && e.tx.version == 1);
    var _ :- Require(|e.tx.inputs| <= INPUT_LIMIT);
    var _ :- Require(1 <= |e.tx.outputs| <= outputLimit);
    var _ :- Require(|ledger| >= HEADER_BYTES && |actorPk| == KEY_BYTES);
    var _ :- Require(e.utxos[0].covenantId.Some?);
    var id := e.utxos[0].covenantId.value;
    var _ :- Require(id != ZERO && CovInputs(e.utxos, id) == [0]);
    AuthenticatedTail(h, e, ledger, tailBytes)
  }

  // ---------------------------------------------------------------- node locks

  /** A tail is taken only as the end of the input script, starting with the boundary opcode, when the script that it completes
      is the one that the spent output pays to. */
  lemma TailTaken(h: Hashes, e: Env, ledger: Bytes, tailBytes: int)
    requires Matched(e) && AuthenticatedTail(h, e, ledger, tailBytes).Val?
    ensures var tail := AuthenticatedTail(h, e, ledger, tailBytes).value;
            && |tail| == tailBytes && 1 <= |tail| <= 1_000_000 && tail[0] == 0x6c
            && |tail| < |e.tx.inputs[0].signatureScript| && HasSuffix(e.tx.inputs[0].signatureScript, tail)
            && LedgerSized(ledger)
            && e.utxos[0].spk == Spk(0, [0xaa, 0x20] + h.blake2b([0x6b] + (PushHeader(|ledger|) + ledger) + tail) + [0x87])
  {
    ScriptForIsLedgerScript(ledger, AuthenticatedTail(h, e, ledger, tailBytes).value);
  }

  /** A successor is the one output that input 0 authorises and the one of its covenant, at place 0, with the value and the script
      that are asked for, and a template that starts with the boundary opcode. */
  lemma SuccessorMeans(h: Hashes, e: Env, id: Bytes, next: Bytes, tail: Bytes, value: int)
    requires Successor(h, e, id, next, tail, value).Val?
    ensures tail != [] && tail[0] == 0x6c && LedgerSized(next) && |e.tx.outputs| > 0
    ensures var o := e.tx.outputs[0];
            && o.value == value && o.covenant == Some(Binding(id, 0))
            && o.scriptPublicKey == Spk(0, [0xaa, 0x20] + h.blake2b([0x6b] + (PushHeader(|next|) + next) + tail) + [0x87])
    ensures forall k | 0 < k < |e.tx.outputs| && e.tx.outputs[k].covenant.Some? ::
              e.tx.outputs[k].covenant.value.covenantId != id && e.tx.outputs[k].covenant.value.authorizingInput != 0
  {
    hide PushHeader, LedgerSized;
    CovenantListsExactly(e.tx, 0, id);
    ScriptForIsLedgerScript(next, tail);
    assert 0 in AuthOutputs(e.tx, 0) && 0 in CovOutputs(e.tx, id);
    forall k | 0 < k < |e.tx.outputs| && e.tx.outputs[k].covenant.Some?
      ensures e.tx.outputs[k].covenant.value.covenantId != id && e.tx.outputs[k].covenant.value.authorizingInput != 0
    {
      assert k !in AuthOutputs(e.tx, 0) && k !in CovOutputs(e.tx, id);
    }
  }

  lemma {:induction false} WhereExactly(flags: seq<bool>)
    ensures forall k: nat :: k in Where(flags) <==> k < |flags| && flags[k]
    ensures forall i, j | 0 <= i < j < |Where(flags)| :: Where(flags)[i] < Where(flags)[j]
  {
    if flags != [] {
      var n := |flags| - 1;
      WhereExactly(flags[..n]);
      forall k: nat
        ensures k in Where(flags) <==> k < |flags| && flags[k]
      {
        assert k in Where(flags) <==> k in Where(flags[..n]) || (flags[n] && k == n);
      }
    }
  }

  /** The introspection lists hold exactly the outputs of a covenant and those that an input authorises. */
  lemma CovenantListsExactly(tx: Transaction, input: int, id: Bytes)
    ensures forall k: nat :: k in AuthOutputs(tx, input) <==>
              k < |tx.outputs| && tx.outputs[k].covenant.Some? && tx.outputs[k].covenant.value.authorizingInput == input
    ensures forall k: nat :: k in CovOutputs(tx, id) <==>
              k < |tx.outputs| && tx.outputs[k].covenant.Some? && tx.outputs[k].covenant.value.covenantId == id
  {
    hide Where;
    WhereExactly(seq(|tx.outputs|, i requires 0 <= i < |tx.outputs| =>
      tx.outputs[i].covenant.Some? && tx.outputs[i].covenant.value.authorizingInput == input));
    WhereExactly(seq(|tx.outputs|, i requires 0 <= i < |tx.outputs| =>
      tx.outputs[i].covenant.Some? && tx.outputs[i].covenant.value.covenantId == id));
  }

  /** `tx.daa >= n`, as the lock-time opcode evaluates it. */
  predicate LockedUntil(e: Env, n: int)
    requires Matched(e)
  {
    n <= e.tx.lockTime < DAA_LIMIT && e.tx.inputs[0].sequence != MAX_SEQUENCE
  }

  /** `this.ageDaa >= n`, as the sequence opcode evaluates it. */
  predicate AgedBy(e: Env, n: int)
    requires Matched(e)
  {
    var sequence := e.tx.inputs[0].sequence;
    0 <= sequence < 0x8000_0000_0000_0000 && sequence % 0x1_0000_0000 >= n
  }
}
