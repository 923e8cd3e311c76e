/** The reader's decoding of a witness is the node's own. */
module ReaderWitness {
  import opened Results
  import opened Bytes
  import opened Layout
  import opened State
  import opened Directory
  import opened Scripts
  import opened Tx
  import opened Frames
  import opened Protocol
  import opened Accepted
  import opened Spends
  import Sil
  import Open
  import Sealed

  lemma SuffixesNest(b: Bytes, s: Bytes, t: Bytes)
    requires HasSuffix(b, s) && HasSuffix(b, t) && |s| <= |t|
    ensures HasSuffix(t, s)
  {
    assert t[|t| - |s|..] == b[|b| - |t|..][|t| - |s|..] == b[|b| - |s|..];
  }

  lemma ScriptEndsWithTail(ledger: Bytes, tail: Bytes)
    requires LedgerSized(ledger)
    ensures EndsWithTail(LedgerScript(ledger, tail), tail)
  {
  }

  /** Whichever template a redeem script is built from, the reader's search finds that one. */
  lemma ModuleOfScript(p: Profile, ledger: Bytes, m: Module)
    requires LedgerSized(ledger)
    ensures ModuleOf(p, LedgerScript(ledger, FrameOf(p, m).tail)) == Ok(m)
  {
    hide LedgerScript, HasSuffix;
    var script := LedgerScript(ledger, FrameOf(p, m).tail);
    ScriptEndsWithTail(ledger, FrameOf(p, m).tail);
    forall n: Module | n != m
      ensures !EndsWithTail(script, FrameOf(p, n).tail)
    {
      if EndsWithTail(script, FrameOf(p, n).tail) {
        NoSecondTail(p, script, m, n);
      }
    }
    assert FrameOf(p, OpenModule).tail == p.open.tail && FrameOf(p, SealedModule).tail == p.sealed.tail
           && FrameOf(p, RefundingModule).tail == p.refunding.tail;
  }

  lemma NoSecondTail(p: Profile, b: Bytes, m: Module, n: Module)
    requires m != n && HasSuffix(b, FrameOf(p, m).tail)
    ensures !HasSuffix(b, FrameOf(p, n).tail)
  {
    hide HasSuffix;
    var s, t := FrameOf(p, m).tail, FrameOf(p, n).tail;
    if HasSuffix(b, t) {
      if |s| <= |t| {
        SuffixesNest(b, s, t);
      } else {
        SuffixesNest(b, t, s);
      }
    }
  }

  lemma ScriptBody(ledger: Bytes, tail: Bytes)
    requires LedgerSized(ledger)
    ensures var script := LedgerScript(ledger, tail);
            && |script| > |tail| + 1 && script[0] == 0x6b
            && ScriptPushes(script[1..|script| - |tail|]) == Ok([ledger])
  {
    hide PushHeader;
    var chunk := PushHeader(|ledger|) + ledger;
    var script := LedgerScript(ledger, tail);
    assert script[1..|script| - |tail|] == chunk;
    PushBytesEncodes(ledger);
    PushThen(chunk, ledger, []);
    assert chunk + [] == chunk;
    assert [ledger] + [] == [ledger];
    HeaderShort(|ledger|);
  }

  lemma HeaderShort(n: nat)
    requires n <= 0x7fff_ffff
    ensures |PushHeader(n)| <= 5
  {
  }

  lemma RedeemLedgerOf(p: Profile, s: Ledger)
    requires Decodable(s) && s.phase in {OPEN, SEALED, REFUNDING}
    ensures |ScriptOf(s, p)| > |FrameOf(p, PhaseModule(s.phase)).tail|
    ensures RedeemLedger(p, ScriptOf(s, p), PhaseModule(s.phase)) == Ok(s)
  {
    hide LedgerBytes, LedgerScript, ScriptPushes, DecodeLedger, FrameOf;
    LedgerBytesSized(s);
    ScriptBody(LedgerBytes(s), FrameOf(p, PhaseModule(s.phase)).tail);
    DecodeOfEncode(s);
  }

  lemma LedgerBytesSized(s: Ledger)
    requires Decodable(s)
    ensures LedgerSized(LedgerBytes(s))
  {
    hide LedgerBytes;
    LedgerSlices(s);
  }

  lemma RedeemRead(p: Profile, s: Ledger)
    requires Decodable(s) && s.phase in {OPEN, SEALED, REFUNDING}
    ensures var script, m := ScriptOf(s, p), PhaseModule(s.phase);
            && script != [] && script[0] == 0x6b
            && ModuleOf(p, script) == Ok(m)
            && |script| > |FrameOf(p, m).tail|
            && RedeemLedger(p, script, m) == Ok(s)
  {
    hide LedgerBytes, LedgerScript, RedeemLedger, ModuleOf;
    LedgerBytesSized(s);
    ScriptBody(LedgerBytes(s), FrameOf(p, PhaseModule(s.phase)).tail);
    ModuleOfScript(p, LedgerBytes(s), PhaseModule(s.phase));
    RedeemLedgerOf(p, s);
  }

  lemma OpenFrame(p: Profile)
    ensures FrameOf(p, OpenModule) == p.open && PhaseModule(OPEN) == OpenModule
  {
  }

  /** The items of an OPEN witness, read one by one. */
  lemma OpenItems(items: seq<Bytes>, a: Open.Args)
    requires |items| == 10 && OpenArgs(items) == Sil.Val(a)
    ensures ScriptNumber(items[0]) == Ok(a.action) && ScriptNumber(items[3]) == Ok(a.programTailBytes)
    ensures ScriptNumber(items[7]) == Ok(a.fee)
    ensures items[4] == a.nextTail && items[5] == a.data && items[6] == a.actorPk
    ensures forall context :: WitnessOrigin(OpenModule, items, context) == Ok(Outpoint(a.originTxId, a.originIndex))
  {
    hide ScriptNumber;
  }

  lemma DecodeOpenSpend(p: Profile, sig: Bytes, s: Ledger, origin: Outpoint, a: Open.Args)
    requires Decodable(s) && s.phase == OPEN && |sig| <= 250000
    requires WitnessOf(p, sig, OpenModule, ScriptOf(s, p)) && OpenArgs(Pushes(sig).value) == Sil.Val(a)
    requires Outpoint(a.originTxId, a.originIndex) == origin && GoodOrigin(origin)
    requires a.programTailBytes == |p.open.tail| && |a.actorPk| == KEY_BYTES && ActionOf(a.action).Ok?
    ensures DecodeSpend(p, sig, Some(origin))
         == Ok(SpendInfo(ActionOf(a.action).value, OpenModule, s, LedgerBytes(s), origin, a.actorPk, a.data, a.nextTail, a.fee))
  {
    hide LedgerBytes, ScriptOf, Pushes, ModuleOf, RedeemLedger, ScriptNumber, Decodable, ActionOf, FrameOf, LedgerScript,
      Fits, Pinned, OpenArgs, WitnessOrigin;
    OpenFrame(p);
    OpenItems(Pushes(sig).value, a);
    RedeemRead(p, s);
  }

  lemma DecodeSealedSpend(p: Profile, sig: Bytes, s: Ledger, origin: Outpoint, a: Sealed.Args)
    requires Decodable(s) && s.phase in {SEALED, REFUNDING} && |sig| <= 250000
    requires WitnessOf(p, sig, PhaseModule(s.phase), ScriptOf(s, p)) && SealedArgs(Pushes(sig).value) == Sil.Val(a)
    requires GoodOrigin(origin)
    requires a.programTailBytes == |TailOf(p, s)| && |a.actorPk| == KEY_BYTES && ActionOf(a.action).Ok?
    ensures DecodeSpend(p, sig, Some(origin))
         == Ok(SpendInfo(ActionOf(a.action).value, PhaseModule(s.phase), s, LedgerBytes(s), origin, a.actorPk, a.data,
                         a.nextTail, a.fee))
  {
    hide LedgerBytes, ScriptOf, Pushes, ModuleOf, RedeemLedger, ScriptNumber, Decodable, ActionOf, FrameOf, LedgerScript,
      Fits, Pinned;
    RedeemRead(p, s);
  }

  // ---------------------------------------------------------------- length of a witness

  function ItemBytes(items: seq<Bytes>): nat {
    if items == [] then 0 else |items[0]| + 5 + ItemBytes(items[1..])
  }

  /** Each item costs at most five bytes of push header. */
  lemma {:induction false} WitnessLength(b: Bytes)
    requires Pushes(b).Ok?
    ensures |b| <= ItemBytes(Pushes(b).value)
    decreases |b|
  {
    hide FirstPush;
    if b != [] {
      var f := FirstPush(b).value;
      FirstPushSize(b);
      WitnessLength(b[f.size..]);
      assert Pushes(b).value[1..] == Pushes(b[f.size..]).value;
    }
  }

  lemma FirstPushSize(b: Bytes)
    requires b != [] && FirstPush(b).Ok?
    ensures FirstPush(b).value.size <= |FirstPush(b).value.item| + 5
  {
    hide FromLe;
  }

  lemma OpenWitnessLength(p: Profile, sig: Bytes, script: Bytes, a: Open.Args)
    requires WitnessOf(p, sig, OpenModule, script) && OpenArgs(Pushes(sig).value) == Sil.Val(a)
    requires |a.originTxId| <= 32 && |a.nextTail| <= 65535 && |a.data| <= 244 && |a.actorPk| == KEY_BYTES
    requires |script| <= 100_000
    ensures |sig| <= 250000
  {
    hide Pushes;
    var i := Pushes(sig).value;
    WitnessLength(sig);
    Unroll(i);
    Unroll(i[1..]);
    Unroll(i[2..]);
    Unroll(i[3..]);
    Unroll(i[4..]);
    Unroll(i[5..]);
    Unroll(i[6..]);
    Unroll(i[7..]);
    Unroll(i[8..]);
    Unroll(i[9..]);
  }

  lemma SealedWitnessLength(p: Profile, sig: Bytes, m: Module, script: Bytes, a: Sealed.Args)
    requires m != OpenModule && WitnessOf(p, sig, m, script) && SealedArgs(Pushes(sig).value) == Sil.Val(a)
    requires |a.nextTail| <= 65535 && |a.data| <= 244 && |a.actorPk| == KEY_BYTES
    requires |script| <= 100_000
    ensures |sig| <= 250000
  {
    hide Pushes;
    var i := Pushes(sig).value;
    WitnessLength(sig);
    Unroll(i);
    Unroll(i[1..]);
    Unroll(i[2..]);
    Unroll(i[3..]);
    Unroll(i[4..]);
    Unroll(i[5..]);
    Unroll(i[6..]);
    Unroll(i[7..]);
  }

  lemma Unroll(items: seq<Bytes>)
    requires items != []
    ensures ItemBytes(items) == |items[0]| + 5 + ItemBytes(items[1..])
    ensures |items| > 1 ==> items[1..][1..] == items[2..]
    ensures ItemBytes([]) == 0
  {
  }

  lemma ScriptOfLength(p: Profile, s: Ledger)
    requires Decodable(s)
    ensures |ScriptOf(s, p)| <= 100_000
  {
    hide LedgerBytes, PushHeader;
    LedgerSlices(s);
    HeaderShort(|LedgerBytes(s)|);
  }
}
