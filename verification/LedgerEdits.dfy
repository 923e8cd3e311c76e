/** Reading and editing the bytes of a ledger in the templates, against the ledger itself. */
module LedgerEdits {
  import opened Results
  import opened Bytes
  import opened Layout
  import opened State
  import opened Directory
  import opened Sil
  import Open
  import Sealed

  // ---------------------------------------------------------------- reads

  lemma U32Reads(b: Bytes, at: nat)
    requires at + 4 <= |b| && FromLe(b[at..at + 4]) < 0x8000_0000
    ensures U32(b, at) == Val(FromLe(b[at..at + 4]))
  {
    SignByte(b[at..at + 4]);
    Pow256Values();
    assert Pow256(3) == 256 * Pow256(2);
  }

  lemma U63Reads(b: Bytes, at: nat)
    requires at + 8 <= |b| && FromLe(b[at..at + 8]) < 0x8000_0000_0000_0000
    ensures U63(b, at) == Val(FromLe(b[at..at + 8]))
  {
    SignByte(b[at..at + 8]);
    Pow256Values();
  }

  /** Every header field that the templates read is the ledger's own. */
  lemma LedgerReads(s: Ledger)
    requires Decodable(s)
    ensures var b := LedgerBytes(s);
            && |b| == HEADER_BYTES + |s.directory|
            && b[OFFSET_MAGIC..OFFSET_PHASE] == MAGIC
            && U32(b, OFFSET_PHASE) == Val(s.phase)
            && U63(b, OFFSET_TICKET_PRICE) == Val(s.config.ticketPrice)
            && U32(b, OFFSET_TICKET_CAP) == Val(s.config.ticketCap)
            && U32(b, OFFSET_PURCHASE_CAP) == Val(s.config.purchaseCap)
            && U32(b, OFFSET_MIN_TICKETS) == Val(s.config.minTickets)
            && U63(b, OFFSET_CLOSE_ELIGIBLE_DAA) == Val(s.config.closeEligibleDaa)
            && U32(b, OFFSET_SOLD) == Val(s.sold)
            && U32(b, OFFSET_PURCHASE_COUNT) == Val(s.purchaseCount)
            && U32(b, OFFSET_REFUND_CURSOR) == Val(s.cursor)
            && b[OFFSET_OWNER_KEY..HEADER_BYTES] == s.ownerKey
            && b[HEADER_BYTES..] == s.directory
  {
    hide LedgerBytes, FromLe, U32, U63, Le;
    LedgerSlices(s);
    LedgerFields(s);
    var b := LedgerBytes(s);
    U32Reads(b, OFFSET_PHASE);
    U63Reads(b, OFFSET_TICKET_PRICE);
    U32Reads(b, OFFSET_TICKET_CAP);
    U32Reads(b, OFFSET_PURCHASE_CAP);
    U32Reads(b, OFFSET_MIN_TICKETS);
    U63Reads(b, OFFSET_CLOSE_ELIGIBLE_DAA);
    U32Reads(b, OFFSET_SOLD);
    U32Reads(b, OFFSET_PURCHASE_COUNT);
    U32Reads(b, OFFSET_REFUND_CURSOR);
  }

  /** The raw bytes of record `i` are the directory's. */
  lemma RecordSlices(s: Ledger, i: nat)
    requires Decodable(s) && i < s.purchaseCount
    ensures var b, at := LedgerBytes(s), HEADER_BYTES + i * RECORD_BYTES;
            && at + RECORD_BYTES <= |b|
            && FromLe(b[at..at + 4]) == EndAt(s.directory, i)
            && b[at + 4..at + RECORD_BYTES] == KeyAt(s.directory, i)
  {
    hide LedgerBytes, FromLe, U32, U63;
    LedgerReads(s);
    var b, at := LedgerBytes(s), HEADER_BYTES + i * RECORD_BYTES;
    var lo := RECORD_BYTES * i;
    assert b[at..at + 4] == b[HEADER_BYTES..][lo..lo + 4];
    assert b[at + 4..at + RECORD_BYTES] == b[HEADER_BYTES..][lo + 4..lo + RECORD_BYTES];
  }

  lemma RecordReads(s: Ledger, i: nat)
    requires ValidLedger(s) && i < s.purchaseCount
    ensures Sealed.RecordEnd(LedgerBytes(s), i) == Val(EndAt(s.directory, i))
    ensures Sealed.RecordKey(LedgerBytes(s), i) == Val(KeyAt(s.directory, i))
  {
    hide LedgerBytes, FromLe, U32, StartAt, EndAt;
    LedgerReads(s);
    RecordSlices(s, i);
    assert Rises(s.directory, i, s.sold);
    U32Reads(LedgerBytes(s), HEADER_BYTES + i * RECORD_BYTES);
  }

  lemma RecordPastEnd(s: Ledger, i: int)
    requires ValidLedger(s) && !(0 <= i < s.purchaseCount)
    ensures Sealed.RecordEnd(LedgerBytes(s), i).Abort?
  {
    hide EndAt;
    hide LedgerBytes, FromLe, U32;
    LedgerReads(s);
  }

  // ---------------------------------------------------------------- edits

  /** Two byte strings that agree outside the four bytes at `at`. */
  ghost predicate SameOutside(b: Bytes, c: Bytes, at: nat)
    requires at + 4 <= |b| == |c|
  {
    b[..at] == c[..at] && b[at + 4..] == c[at + 4..]
  }

  lemma Set4Is(b: Bytes, c: Bytes, at: nat, value: int)
    requires at + 4 <= |b| == |c| && SameOutside(b, c, at)
    requires 0 <= value <= 0x7fff_ffff && c[at..at + 4] == Le(value, 4)
    ensures Set4(b, at, value) == Val(c)
  {
    assert c == c[..at] + c[at..at + 4] + c[at + 4..];
  }

  lemma PhaseEdit(s: Ledger, phase: int)
    requires Decodable(s) && 0 <= phase <= 0x7fff_ffff
    ensures Set4(LedgerBytes(s), OFFSET_PHASE, phase) == Val(LedgerBytes(s.(phase := phase)))
  {
    hide Le, Set4, LedgerBytes;
    var b, c := LedgerBytes(s), LedgerBytes(s.(phase := phase));
    LedgerSlices(s);
    LedgerSlices(s.(phase := phase));
    JoinFrom(b, c, 8);
    Set4Is(b, c, OFFSET_PHASE, phase);
  }

  lemma SoldEdit(s: Ledger, sold: int)
    requires Decodable(s) && 0 <= sold <= 0x7fff_ffff
    ensures Set4(LedgerBytes(s), OFFSET_SOLD, sold) == Val(LedgerBytes(s.(sold := sold)))
  {
    hide Le, Set4, LedgerBytes;
    var b, c := LedgerBytes(s), LedgerBytes(s.(sold := sold));
    LedgerSlices(s);
    LedgerSlices(s.(sold := sold));
    JoinUpTo(b, c, 36);
    JoinFrom(b, c, 40);
    Set4Is(b, c, OFFSET_SOLD, sold);
  }

  lemma CountEdit(s: Ledger, count: int)
    requires Decodable(s) && 0 <= count <= 0x7fff_ffff
    ensures Set4(LedgerBytes(s), OFFSET_PURCHASE_COUNT, count) == Val(LedgerBytes(s.(purchaseCount := count)))
  {
    hide Le, Set4, LedgerBytes;
    var b, c := LedgerBytes(s), LedgerBytes(s.(purchaseCount := count));
    LedgerSlices(s);
    LedgerSlices(s.(purchaseCount := count));
    JoinUpTo(b, c, 40);
    JoinFrom(b, c, 44);
    Set4Is(b, c, OFFSET_PURCHASE_COUNT, count);
  }

  lemma CursorEdit(s: Ledger, cursor: int)
    requires Decodable(s) && 0 <= cursor <= 0x7fff_ffff
    ensures Set4(LedgerBytes(s), OFFSET_REFUND_CURSOR, cursor) == Val(LedgerBytes(s.(cursor := cursor)))
  {
    hide Le, Set4, LedgerBytes;
    var b, c := LedgerBytes(s), LedgerBytes(s.(cursor := cursor));
    LedgerSlices(s);
    LedgerSlices(s.(cursor := cursor));
    JoinUpTo(b, c, 44);
    JoinFrom(b, c, 48);
    Set4Is(b, c, OFFSET_REFUND_CURSOR, cursor);
  }

  /** Ledgers whose fields agree before offset `at` agree before it. */
  lemma JoinUpTo(b: Bytes, c: Bytes, at: nat)
    requires |b| >= HEADER_BYTES && |c| >= HEADER_BYTES && at in {36, 40, 44}
    requires b[..4] == c[..4] && b[4..8] == c[4..8] && b[8..16] == c[8..16] && b[16..20] == c[16..20]
    requires b[20..24] == c[20..24] && b[24..28] == c[24..28] && b[28..36] == c[28..36]
    requires at > 36 ==> b[36..40] == c[36..40]
    requires at > 40 ==> b[40..44] == c[40..44]
    ensures b[..at] == c[..at]
  {
    Grow(b, c, 4, 8);
    Grow(b, c, 8, 16);
    Grow(b, c, 16, 20);
    Grow(b, c, 20, 24);
    Grow(b, c, 24, 28);
    Grow(b, c, 28, 36);
    if at > 36 {
      Grow(b, c, 36, 40);
    }
    if at > 40 {
      Grow(b, c, 40, 44);
    }
  }

  lemma Grow(b: Bytes, c: Bytes, lo: nat, hi: nat)
    requires lo <= hi <= |b| && hi <= |c|
    requires b[..lo] == c[..lo] && b[lo..hi] == c[lo..hi]
    ensures b[..hi] == c[..hi]
  {
    assert b[..hi] == b[..lo] + b[lo..hi];
    assert c[..hi] == c[..lo] + c[lo..hi];
  }

  /** Ledgers whose fields agree from offset `at` on agree from it on. */
  lemma JoinFrom(b: Bytes, c: Bytes, at: nat)
    requires |b| >= HEADER_BYTES && |c| >= HEADER_BYTES && at in {8, 40, 44, 48}
    requires at <= 8 ==> b[8..16] == c[8..16] && b[16..20] == c[16..20] && b[20..24] == c[20..24]
                         && b[24..28] == c[24..28] && b[28..36] == c[28..36] && b[36..40] == c[36..40]
    requires at <= 40 ==> b[40..44] == c[40..44]
    requires at <= 44 ==> b[44..48] == c[44..48]
    requires b[48..80] == c[48..80] && b[80..] == c[80..]
    ensures b[at..] == c[at..]
  {
    Shrink(b, c, 48, 80);
    if at <= 44 {
      Shrink(b, c, 44, 48);
    }
    if at <= 40 {
      Shrink(b, c, 40, 44);
    }
    if at <= 8 {
      Shrink(b, c, 36, 40);
      Shrink(b, c, 28, 36);
      Shrink(b, c, 24, 28);
      Shrink(b, c, 20, 24);
      Shrink(b, c, 16, 20);
      Shrink(b, c, 8, 16);
    }
  }

  lemma Shrink(b: Bytes, c: Bytes, lo: nat, hi: nat)
    requires lo <= hi <= |b| && hi <= |c|
    requires b[hi..] == c[hi..] && b[lo..hi] == c[lo..hi]
    ensures b[lo..] == c[lo..]
  {
    assert b[lo..] == b[lo..hi] + b[hi..];
    assert c[lo..] == c[lo..hi] + c[hi..];
  }

  /** The two edits and the append of a purchase are the encoding of the ledger-level purchase. */
  lemma PurchaseEdit(s: Ledger, quantity: int, buyer: Bytes)
    requires Decodable(s) && 0 <= quantity && s.sold + quantity <= 0x7fff_ffff && |buyer| == KEY_BYTES
    ensures var sale := Set4(LedgerBytes(s), OFFSET_SOLD, s.sold + quantity);
            && sale.Val?
            && var counted := Set4(sale.value, OFFSET_PURCHASE_COUNT, s.purchaseCount + 1);
            && counted.Val?
            && counted.value + Le(s.sold + quantity, 4) + buyer == LedgerBytes(Bought(s, quantity, buyer))
  {
    hide LedgerBytes, Set4, Le;
    var sold := s.(sold := s.sold + quantity);
    var counted := sold.(purchaseCount := s.purchaseCount + 1);
    SoldEdit(s, s.sold + quantity);
    CountEdit(sold, s.purchaseCount + 1);
    AppendToLedger(counted, Le(s.sold + quantity, 4), buyer);
  }

  lemma AppendToLedger(s: Ledger, end: Bytes, key: Bytes)
    requires Fits(s)
    ensures LedgerBytes(s) + end + key == LedgerBytes(s.(directory := s.directory + (end + key)))
  {
    hide Le, LedgerBytes;
    var t := s.(directory := s.directory + (end + key));
    var b, c := LedgerBytes(s), LedgerBytes(t);
    LedgerSlices(s);
    LedgerSlices(t);
    HeaderOf(b, c);
    assert b == b[..80] + b[80..];
    assert c == c[..80] + c[80..];
  }

  lemma HeaderOf(b: Bytes, c: Bytes)
    requires |b| >= HEADER_BYTES && |c| >= HEADER_BYTES
    requires b[..4] == c[..4] && b[4..8] == c[4..8] && b[8..16] == c[8..16] && b[16..20] == c[16..20]
    requires b[20..24] == c[20..24] && b[24..28] == c[24..28] && b[28..36] == c[28..36]
    requires b[36..40] == c[36..40] && b[40..44] == c[40..44] && b[44..48] == c[44..48] && b[48..80] == c[48..80]
    ensures b[..80] == c[..80]
  {
    JoinUpTo(b, c, 44);
    Grow(b, c, 44, 48);
    Grow(b, c, 48, 80);
  }

  /** The genesis ledger that OPEN rebuilds is the encoding of the zero-ticket ledger. */
  lemma GenesisEdit(s: Ledger)
    requires Decodable(s)
    ensures Open.GenesisLedger(LedgerBytes(s)) == LedgerBytes(NewOpen(s.ownerKey, s.config))
  {
    hide Le, LedgerBytes;
    var b, g := LedgerBytes(s), LedgerBytes(NewOpen(s.ownerKey, s.config));
    LedgerSlices(s);
    LedgerSlices(NewOpen(s.ownerKey, s.config));
    ZeroDigits();
    assert b[8..36] == g[8..36] by { MiddleFields(b, g); }
    assert g[36..48] == Zeros(12) by {
      assert g[36..48] == g[36..40] + g[40..44] + g[44..48];
    }
    assert g == g[..4] + g[4..8] + g[8..36] + g[36..48] + g[48..80] by { GenesisSplit(g); }
  }

  lemma MiddleFields(b: Bytes, c: Bytes)
    requires |b| >= HEADER_BYTES && |c| >= HEADER_BYTES
    requires b[8..16] == c[8..16] && b[16..20] == c[16..20] && b[20..24] == c[20..24]
    requires b[24..28] == c[24..28] && b[28..36] == c[28..36]
    ensures b[8..36] == c[8..36]
  {
    assert b[8..36] == b[8..16] + (b[16..20] + b[20..24]) + (b[24..28] + b[28..36]);
    assert c[8..36] == c[8..16] + (c[16..20] + c[20..24]) + (c[24..28] + c[28..36]);
  }

  lemma GenesisSplit(g: Bytes)
    requires |g| == HEADER_BYTES
    ensures g == g[..4] + g[4..8] + g[8..36] + g[36..48] + g[48..80]
  {
  }

  lemma ZeroDigits()
    ensures Le(1, 4) == [1, 0, 0, 0]
    ensures Le(0, 4) == [0, 0, 0, 0]
    ensures Le(0, 4) + Le(0, 4) + Le(0, 4) == Zeros(12)
    ensures Le(1, 8) == [1, 0, 0, 0, 0, 0, 0, 0]
    ensures Le(35, 8) == [35, 0, 0, 0, 0, 0, 0, 0]
  {
    assert Le(0, 1) == [0] + Le(0, 0);
    assert Le(0, 2) == [0] + Le(0, 1);
    assert Le(0, 3) == [0] + Le(0, 2);
    assert Le(0, 4) == [0] + Le(0, 3);
    assert Le(0, 5) == [0] + Le(0, 4);
    assert Le(0, 6) == [0] + Le(0, 5);
    assert Le(0, 7) == [0] + Le(0, 6);
    assert Le(1, 4) == [1] + Le(0, 3);
    assert Le(1, 8) == [1] + Le(0, 7);
    assert Le(35, 8) == [35] + Le(0, 7);
  }
}
