/** Transaction values and their range checks (scripts/core/src/transaction.ts:6-62). */
module Tx {
  import opened Results
  import opened Bytes
  import opened Layout
  import opened Scripts

  datatype Binding = Binding(covenantId: Bytes, authorizingInput: int)
  datatype Input = Input(previousOutpoint: Outpoint, signatureScript: Bytes, sequence: int,
                         computeBudget: Option<int>, sigOpCount: Option<int>)
  datatype Output = Output(value: int, scriptPublicKey: Spk, covenant: Option<Binding>)
  datatype Transaction = Transaction(version: int, inputs: seq<Input>, outputs: seq<Output>, lockTime: int,
                                     subnetworkId: Bytes, gas: int, payload: Bytes, storageMass: int)

  const MAX_SEQUENCE := 0xffff_ffff_ffff_ffff

  predicate U64(n: int) { 0 <= n <= 0xffff_ffff_ffff_ffff }

  predicate ValidOutpoint(o: Outpoint) {
    |o.transactionId| == 32 && 0 <= o.index <= 0xffff_ffff
  }

  predicate ValidInput(i: Input) {
    && ValidOutpoint(i.previousOutpoint)
    && U64(i.sequence)
    && (i.computeBudget.Some? ==> 0 <= i.computeBudget.value <= 65535)
    && (i.sigOpCount.Some? ==> 0 <= i.sigOpCount.value <= 255)
  }

  predicate ValidOutput(o: Output, version: int, inputCount: int) {
    && U64(o.value)
    && 0 <= o.scriptPublicKey.version <= 65535
    && (o.covenant.Some? ==>
          && version == 1
          && |o.covenant.value.covenantId| == 32
          && 0 <= o.covenant.value.authorizingInput <= inputCount - 1)
  }

  /** What `validateTransaction` accepts. */
  predicate ValidTransaction(t: Transaction) {
    && 0 <= t.version <= 1
    && |t.inputs| <= 65535
    && |t.outputs| <= 65535
    && (forall i | 0 <= i < |t.inputs| :: ValidInput(t.inputs[i]))
    && (forall i | 0 <= i < |t.outputs| :: ValidOutput(t.outputs[i], t.version, |t.inputs|))
    && U64(t.lockTime)
    && |t.subnetworkId| == 20
    && U64(t.gas)
    && U64(t.storageMass)
    && |t.payload| <= 16 * 1024 * 1024
  }

  function TotalOut(outputs: seq<Output>): int {
    if outputs == [] then 0 else TotalOut(outputs[..|outputs| - 1]) + outputs[|outputs| - 1].value
  }

  lemma {:induction false} TotalOutConcat(a: seq<Output>, b: seq<Output>)
    ensures TotalOut(a + b) == TotalOut(a) + TotalOut(b)
  {
    if b == [] {
      assert a + b == a;
    } else {
      var n := |b| - 1;
      assert (a + b)[..|a + b| - 1] == a + b[..n];
      TotalOutConcat(a, b[..n]);
    }
  }

  predicate DistinctInputs(t: Transaction) {
    forall i, j | 0 <= i < j < |t.inputs| :: t.inputs[i].previousOutpoint != t.inputs[j].previousOutpoint
  }

  predicate Payable(value: int) { 0 < value <= VALUE_LIMIT }

  /** An ordinary payment: no covenant. */
  function Pay(value: int, key: Bytes): Output {
    Output(value, P2pk(key), None)
  }
}

/** The three pinned templates (state.ts:31-59). */
module Frames {
  import opened Results
  import opened Bytes
  import opened Layout
  import opened State
  import opened Directory
  import opened Scripts

  datatype Module = OpenModule | SealedModule | RefundingModule

  datatype Frame = Frame(tail: Bytes, tag: Bytes)
  datatype FrameTable = FrameTable(open: Frame, sealed: Frame, refunding: Frame)

  predicate HasSuffix(b: Bytes, tail: Bytes) {
    |tail| <= |b| && b[|b| - |tail|..] == tail
  }

  predicate PinnedFrame(f: Frame) {
    1 <= |f.tail| <= 65535 && f.tail[0] == 0x6c && |f.tag| == 4
  }

  /** Facts about the approved profile: framed tails of bounded length, none of which ends with another. */
  predicate Pinned(t: FrameTable) {
    && PinnedFrame(t.open) && PinnedFrame(t.sealed) && PinnedFrame(t.refunding)
    && !HasSuffix(t.open.tail, t.sealed.tail) && !HasSuffix(t.open.tail, t.refunding.tail)
    && !HasSuffix(t.sealed.tail, t.open.tail) && !HasSuffix(t.sealed.tail, t.refunding.tail)
    && !HasSuffix(t.refunding.tail, t.open.tail) && !HasSuffix(t.refunding.tail, t.sealed.tail)
  }

  type Profile = t: FrameTable | Pinned(t)
    witness FrameTable(Frame([0x6c, 1], Zeros(4)), Frame([0x6c, 2], Zeros(4)), Frame([0x6c, 3], Zeros(4)))

  function FrameOf(p: Profile, m: Module): (f: Frame)
    ensures PinnedFrame(f)
  {
    match m
    case OpenModule => p.open
    case SealedModule => p.sealed
    case RefundingModule => p.refunding
  }

  function PhaseModule(phase: int): Module {
    if phase == OPEN then OpenModule else if phase == REFUNDING then RefundingModule else SealedModule
  }

  predicate LedgerSized(b: Bytes) {
    HEADER_BYTES <= |b| <= HEADER_BYTES + MAX_PURCHASES * RECORD_BYTES
  }

  /** The redeem script of a ledger under a template tail. */
  function LedgerScript(ledger: Bytes, tail: Bytes): Bytes
    requires LedgerSized(ledger)
  {
    [0x6b] + (PushHeader(|ledger|) + ledger) + tail
  }

  function ScriptOf(s: Ledger, p: Profile): Bytes
    requires Decodable(s)
  {
    LedgerSlices(s);
    LedgerScript(LedgerBytes(s), FrameOf(p, PhaseModule(s.phase)).tail)
  }

  /** The script of the zero-ticket OPEN ledger that a round starts from. */
  function RootScript(s: Ledger, p: Profile): Bytes
    requires Decodable(s)
  {
    ScriptOf(NewOpen(s.ownerKey, s.config), p)
  }

  /** A redeem script determines its ledger and its tail. */
  lemma LedgerScriptInjective(a: Bytes, ta: Bytes, b: Bytes, tb: Bytes)
    requires LedgerSized(a) && LedgerSized(b)
    requires LedgerScript(a, ta) == LedgerScript(b, tb)
    ensures a == b && ta == tb
  {
    hide PushHeader, FirstPush;
    var ha, hb := PushHeader(|a|) + a, PushHeader(|b|) + b;
    PushBytesEncodes(a);
    PushBytesEncodes(b);
    assert LedgerScript(a, ta)[1..] == ha + ta;
    assert LedgerScript(b, tb)[1..] == hb + tb;
    assert FirstPush(ha + ta) == Ok(Push(a, |ha|));
    assert FirstPush(hb + tb) == Ok(Push(b, |hb|));
    assert (ha + ta)[|ha|..] == ta && (hb + tb)[|hb|..] == tb;
  }

  /** Distinct modules have distinct tails. */
  lemma TailsDistinct(p: Profile, m: Module, n: Module)
    requires FrameOf(p, m).tail == FrameOf(p, n).tail
    ensures m == n
  {
    var t := FrameOf(p, m).tail;
    assert HasSuffix(t, t);
  }

  function TemplateBytes(tail: Bytes): Bytes {
    Le(1, 8) + [0x6b] + Le(|tail|, 8) + tail
  }

  /** The preimage of a template hash: the number of head parts, the one-byte head, the length of the tail, and the tail. */
  lemma TemplateLayout(tail: Bytes)
    requires |tail| <= 1_000_000
    ensures var b := TemplateBytes(tail);
            && |b| == 17 + |tail| && FromLe(b[..8]) == 1 && b[8] == 0x6b && FromLe(b[9..17]) == |tail| && b[17..] == tail
  {
    hide Le;
    Pow256Values();
    var b := TemplateBytes(tail);
    FromLeOfLe(1, 8);
    FromLeOfLe(|tail|, 8);
    assert b[..8] == Le(1, 8) && b[9..17] == Le(|tail|, 8);
  }

  lemma TemplateBytesInjective(a: Bytes, b: Bytes)
    requires TemplateBytes(a) == TemplateBytes(b)
    ensures a == b
  {
    assert TemplateBytes(a)[17..] == a;
    assert TemplateBytes(b)[17..] == b;
  }
}
