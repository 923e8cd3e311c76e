/** Fixed layout of the KW21 ledger (contracts/ledger-layout.json) and protocol constants. */
module Layout {
  import opened Bytes

  const MAGIC: Bytes := [0x4b, 0x57, 0x32, 0x31]
  const OFFSET_MAGIC := 0
  const OFFSET_PHASE := 4
  const OFFSET_TICKET_PRICE := 8
  const OFFSET_TICKET_CAP := 16
  const OFFSET_PURCHASE_CAP := 20
  const OFFSET_MIN_TICKETS := 24
  const OFFSET_CLOSE_ELIGIBLE_DAA := 28
  const OFFSET_SOLD := 36
  const OFFSET_PURCHASE_COUNT := 40
  const OFFSET_REFUND_CURSOR := 44
  const OFFSET_OWNER_KEY := 48
  const HEADER_BYTES := 80
  const RECORD_BYTES := 36
  const RECORD_OFFSET_BUYER_KEY := 4
  const KEY_BYTES := 32

  const DEPOSIT := 400_000_000
  const MIN_PRICE := 100_000_000
  const FINALIZER := 100_000_000
  const MAX_PAY_FEE := 50_000_000
  const REFUND_FEE := 2_000_000
  const MAX_REFUND_RECORDS := 32
  const DRAW_DELAY := 100
  const TIMEOUT_DELAY := 432_000
  const DAA_LIMIT := 500_000_000_000
  const VALUE_LIMIT := 9_000_000_000_000_000
  const MAX_PURCHASES := 256
  const MAX_TICKETS := 100_000
  const INPUT_LIMIT := 9

  /** The price of some tickets. */
  function Cost(tickets: int, price: int): int {
    tickets * price
  }

  const OPEN := 1
  const SEALED := 2
  const REFUNDING := 5
}

/** Ledger values, their codec and their validity (scripts/core/src/state.ts). */
module State {
  import opened Results
  import opened Bytes
  import opened Layout

  datatype Config = Config(ticketPrice: int, ticketCap: int, purchaseCap: int, minTickets: int, closeEligibleDaa: int)

  datatype Ledger = Ledger(
    phase: int, ownerKey: Bytes, config: Config, sold: int, purchaseCount: int, cursor: int, directory: Bytes)

  datatype Record = Record(end: int, key: Bytes, count: int)

  function NewOpen(ownerKey: Bytes, config: Config): Ledger {
    Ledger(OPEN, ownerKey, config, 0, 0, 0, [])
  }

  // ---------------------------------------------------------------- codec

  predicate Fits(s: Ledger) {
    && 0 <= s.phase < 0x1_0000_0000
    && 0 <= s.config.ticketPrice < 0x1_0000_0000_0000_0000
    && 0 <= s.config.ticketCap < 0x1_0000_0000
    && 0 <= s.config.purchaseCap < 0x1_0000_0000
    && 0 <= s.config.minTickets < 0x1_0000_0000
    && 0 <= s.config.closeEligibleDaa < 0x1_0000_0000_0000_0000
    && 0 <= s.sold < 0x1_0000_0000
    && 0 <= s.purchaseCount < 0x1_0000_0000
    && 0 <= s.cursor < 0x1_0000_0000
    && |s.ownerKey| == KEY_BYTES
  }

  /** The bytes of a ledger whose fields are in range. */
  function LedgerBytes(s: Ledger): (b: Bytes)
    requires Fits(s)
    ensures |b| == HEADER_BYTES + |s.directory|
  {
    MAGIC + (Le(s.phase, 4) + (Le(s.config.ticketPrice, 8) + (Le(s.config.ticketCap, 4) + (Le(s.config.purchaseCap, 4)
    + (Le(s.config.minTickets, 4) + (Le(s.config.closeEligibleDaa, 8) + (Le(s.sold, 4) + (Le(s.purchaseCount, 4)
    + (Le(s.cursor, 4) + (s.ownerKey + s.directory))))))))))
  }

  function KeyChecked(key: Bytes): Result<Bytes> {
    if |key| == KEY_BYTES then Ok(key) else Err(BYTE_LENGTH)
  }

  function EncodeLedger(s: Ledger): Result<Bytes> {
    var phase :- LeChecked(s.phase, 4);
    var price :- LeChecked(s.config.ticketPrice, 8);
    var cap :- LeChecked(s.config.ticketCap, 4);
    var purchaseCap :- LeChecked(s.config.purchaseCap, 4);
    var minTickets :- LeChecked(s.config.minTickets, 4);
    var close :- LeChecked(s.config.closeEligibleDaa, 8);
    var sold :- LeChecked(s.sold, 4);
    var count :- LeChecked(s.purchaseCount, 4);
    var cursor :- LeChecked(s.cursor, 4);
    var owner :- KeyChecked(s.ownerKey);
    var p := MAGIC + (phase + (price + (cap + (purchaseCap + (minTickets + (close + (sold + (count + (cursor
             + (owner + s.directory))))))))));
    var _ :- Check(|p| == HEADER_BYTES + |s.directory|, STATE_LAYOUT);
    Ok(p)
  }

  /** Encoding succeeds exactly on ledgers whose fields fit, and writes them in order. */
  lemma EncodeIsLedgerBytes(s: Ledger)
    ensures Fits(s) <==> EncodeLedger(s).Ok?
    ensures Fits(s) ==> EncodeLedger(s).value == LedgerBytes(s)
  {
    Pow256Values();
  }

  function FieldChecked(b: Bytes, at: nat, width: nat): Result<int>
    requires at + width <= |b| && width > 0
  {
    var n := FromLe(b[at..at + width]);
    if n < 128 * Pow256(width - 1) then Ok(n) else Err(SIGNED_DOMAIN)
  }

  function DecodeLedger(b: Bytes): Result<Ledger> {
    var _ :- Check(HEADER_BYTES <= |b| <= HEADER_BYTES + MAX_PURCHASES * RECORD_BYTES, LEDGER_LENGTH);
    var _ :- Check(b[OFFSET_MAGIC..OFFSET_PHASE] == MAGIC, STATE_MAGIC);
    var pc :- FieldChecked(b, OFFSET_PURCHASE_COUNT, 4);
    var _ :- Check(pc <= MAX_PURCHASES && |b| == HEADER_BYTES + RECORD_BYTES * pc, DIRECTORY_LENGTH);
    var phase :- FieldChecked(b, OFFSET_PHASE, 4);
    var price :- FieldChecked(b, OFFSET_TICKET_PRICE, 8);
    var cap :- FieldChecked(b, OFFSET_TICKET_CAP, 4);
    var purchaseCap :- FieldChecked(b, OFFSET_PURCHASE_CAP, 4);
    var minTickets :- FieldChecked(b, OFFSET_MIN_TICKETS, 4);
    var close :- FieldChecked(b, OFFSET_CLOSE_ELIGIBLE_DAA, 8);
    var sold :- FieldChecked(b, OFFSET_SOLD, 4);
    var cursor :- FieldChecked(b, OFFSET_REFUND_CURSOR, 4);
    Ok(Ledger(phase, b[OFFSET_OWNER_KEY..HEADER_BYTES], Config(price, cap, purchaseCap, minTickets, close),
              sold, pc, cursor, b[HEADER_BYTES..]))
  }

  /** The ledgers that the decoder can produce. */
  predicate Decodable(s: Ledger) {
    && 0 <= s.phase < 0x8000_0000
    && 0 <= s.config.ticketPrice < 0x8000_0000_0000_0000
    && 0 <= s.config.ticketCap < 0x8000_0000
    && 0 <= s.config.purchaseCap < 0x8000_0000
    && 0 <= s.config.minTickets < 0x8000_0000
    && 0 <= s.config.closeEligibleDaa < 0x8000_0000_0000_0000
    && 0 <= s.sold < 0x8000_0000
    && 0 <= s.purchaseCount <= MAX_PURCHASES
    && 0 <= s.cursor < 0x8000_0000
    && |s.ownerKey| == KEY_BYTES
    && |s.directory| == RECORD_BYTES * s.purchaseCount
  }

  /** `b` continues at `at` with `head`, then `rest`. */
  lemma Cut(b: Bytes, at: nat, head: Bytes, rest: Bytes)
    requires at <= |b| && b[at..] == head + rest
    ensures at + |head| <= |b|
    ensures b[at..at + |head|] == head && b[at + |head|..] == rest
  {
    assert b[at..][..|head|] == head;
    assert b[at..][|head|..] == rest;
  }

  /** Where each field of an encoded ledger lies. */
  lemma LedgerSlices(s: Ledger)
    requires Fits(s)
    ensures var b := LedgerBytes(s);
            && |b| == HEADER_BYTES + |s.directory|
            && b[..OFFSET_PHASE] == MAGIC
            && b[OFFSET_PHASE..OFFSET_TICKET_PRICE] == Le(s.phase, 4)
            && b[OFFSET_TICKET_PRICE..OFFSET_TICKET_CAP] == Le(s.config.ticketPrice, 8)
            && b[OFFSET_TICKET_CAP..OFFSET_PURCHASE_CAP] == Le(s.config.ticketCap, 4)
            && b[OFFSET_PURCHASE_CAP..OFFSET_MIN_TICKETS] == Le(s.config.purchaseCap, 4)
            && b[OFFSET_MIN_TICKETS..OFFSET_CLOSE_ELIGIBLE_DAA] == Le(s.config.minTickets, 4)
            && b[OFFSET_CLOSE_ELIGIBLE_DAA..OFFSET_SOLD] == Le(s.config.closeEligibleDaa, 8)
            && b[OFFSET_SOLD..OFFSET_PURCHASE_COUNT] == Le(s.sold, 4)
            && b[OFFSET_PURCHASE_COUNT..OFFSET_REFUND_CURSOR] == Le(s.purchaseCount, 4)
            && b[OFFSET_REFUND_CURSOR..OFFSET_OWNER_KEY] == Le(s.cursor, 4)
            && b[OFFSET_OWNER_KEY..HEADER_BYTES] == s.ownerKey
            && b[HEADER_BYTES..] == s.directory
  {
    hide Le;
    var b := LedgerBytes(s);
    var t10 := s.ownerKey + s.directory;
    var t9 := Le(s.cursor, 4) + t10;
    var t8 := Le(s.purchaseCount, 4) + t9;
    var t7 := Le(s.sold, 4) + t8;
    var t6 := Le(s.config.closeEligibleDaa, 8) + t7;
    var t5 := Le(s.config.minTickets, 4) + t6;
    var t4 := Le(s.config.purchaseCap, 4) + t5;
    var t3 := Le(s.config.ticketCap, 4) + t4;
    var t2 := Le(s.config.ticketPrice, 8) + t3;
    var t1 := Le(s.phase, 4) + t2;
    assert b[0..] == b == MAGIC + t1;
    Cut(b, 0, MAGIC, t1);
    Cut(b, 4, Le(s.phase, 4), t2);
    Cut(b, 8, Le(s.config.ticketPrice, 8), t3);
    Cut(b, 16, Le(s.config.ticketCap, 4), t4);
    Cut(b, 20, Le(s.config.purchaseCap, 4), t5);
    Cut(b, 24, Le(s.config.minTickets, 4), t6);
    Cut(b, 28, Le(s.config.closeEligibleDaa, 8), t7);
    Cut(b, 36, Le(s.sold, 4), t8);
    Cut(b, 40, Le(s.purchaseCount, 4), t9);
    Cut(b, 44, Le(s.cursor, 4), t10);
    Cut(b, 48, s.ownerKey, s.directory);
  }

  /** A byte string of at least header length is the concatenation of its fields. */
  lemma HeaderSplit(b: Bytes)
    requires |b| >= HEADER_BYTES
    ensures b == b[..4] + (b[4..8] + (b[8..16] + (b[16..20] + (b[20..24] + (b[24..28] + (b[28..36] + (b[36..40]
                 + (b[40..44] + (b[44..48] + (b[48..80] + b[80..]))))))))))
  {
    Join(b, 48, 80);
    Join(b, 44, 48);
    Join(b, 40, 44);
    Join(b, 36, 40);
    Join(b, 28, 36);
    Join(b, 24, 28);
    Join(b, 20, 24);
    Join(b, 16, 20);
    Join(b, 8, 16);
    Join(b, 4, 8);
    Join(b, 0, 4);
    assert b[0..] == b && b[0..4] == b[..4];
  }

  lemma Join(b: Bytes, lo: nat, hi: nat)
    requires lo <= hi <= |b|
    ensures b[lo..] == b[lo..hi] + b[hi..]
  {
  }

  lemma LedgerFields(s: Ledger)
    requires Fits(s)
    ensures var b := LedgerBytes(s);
            && |b| == HEADER_BYTES + |s.directory|
            && FromLe(b[OFFSET_PHASE..OFFSET_TICKET_PRICE]) == s.phase
            && FromLe(b[OFFSET_TICKET_PRICE..OFFSET_TICKET_CAP]) == s.config.ticketPrice
            && FromLe(b[OFFSET_TICKET_CAP..OFFSET_PURCHASE_CAP]) == s.config.ticketCap
            && FromLe(b[OFFSET_PURCHASE_CAP..OFFSET_MIN_TICKETS]) == s.config.purchaseCap
            && FromLe(b[OFFSET_MIN_TICKETS..OFFSET_CLOSE_ELIGIBLE_DAA]) == s.config.minTickets
            && FromLe(b[OFFSET_CLOSE_ELIGIBLE_DAA..OFFSET_SOLD]) == s.config.closeEligibleDaa
            && FromLe(b[OFFSET_SOLD..OFFSET_PURCHASE_COUNT]) == s.sold
            && FromLe(b[OFFSET_PURCHASE_COUNT..OFFSET_REFUND_CURSOR]) == s.purchaseCount
            && FromLe(b[OFFSET_REFUND_CURSOR..OFFSET_OWNER_KEY]) == s.cursor
  {
    hide Le, FromLe, LedgerBytes;
    LedgerSlices(s);
    Pow256Values();
    FromLeOfLe(s.phase, 4);
    FromLeOfLe(s.config.ticketPrice, 8);
    FromLeOfLe(s.config.ticketCap, 4);
    FromLeOfLe(s.config.purchaseCap, 4);
    FromLeOfLe(s.config.minTickets, 4);
    FromLeOfLe(s.config.closeEligibleDaa, 8);
    FromLeOfLe(s.sold, 4);
    FromLeOfLe(s.purchaseCount, 4);
    FromLeOfLe(s.cursor, 4);
  }

  lemma DecodeOfEncode(s: Ledger)
    requires Decodable(s)
    ensures EncodeLedger(s) == Ok(LedgerBytes(s))
    ensures DecodeLedger(LedgerBytes(s)) == Ok(s)
  {
    hide Le, FromLe, LedgerBytes, EncodeLedger;
    EncodeIsLedgerBytes(s);
    LedgerSlices(s);
    LedgerFields(s);
    Pow256Values();
    assert Pow256(3) == 256 * Pow256(2);
  }

  lemma DecodedFields(b: Bytes)
    requires DecodeLedger(b).Ok?
    ensures var s := DecodeLedger(b).value;
            && Decodable(s)
            && |b| >= HEADER_BYTES
            && b[..4] == MAGIC
            && b[4..8] == Le(s.phase, 4)
            && b[8..16] == Le(s.config.ticketPrice, 8)
            && b[16..20] == Le(s.config.ticketCap, 4)
            && b[20..24] == Le(s.config.purchaseCap, 4)
            && b[24..28] == Le(s.config.minTickets, 4)
            && b[28..36] == Le(s.config.closeEligibleDaa, 8)
            && b[36..40] == Le(s.sold, 4)
            && b[40..44] == Le(s.purchaseCount, 4)
            && b[44..48] == Le(s.cursor, 4)
            && b[48..80] == s.ownerKey
            && b[80..] == s.directory
  {
    hide Le, FromLe;
    Pow256Values();
    assert Pow256(3) == 256 * Pow256(2);
    LeOfFromLe(b[4..8]);
    LeOfFromLe(b[8..16]);
    LeOfFromLe(b[16..20]);
    LeOfFromLe(b[20..24]);
    LeOfFromLe(b[24..28]);
    LeOfFromLe(b[28..36]);
    LeOfFromLe(b[36..40]);
    LeOfFromLe(b[40..44]);
    LeOfFromLe(b[44..48]);
  }

  /** Only the encoding of a ledger decodes to it. */
  lemma EncodeOfDecode(b: Bytes)
    requires DecodeLedger(b).Ok?
    ensures Decodable(DecodeLedger(b).value)
    ensures LedgerBytes(DecodeLedger(b).value) == b && EncodeLedger(DecodeLedger(b).value) == Ok(b)
  {
    hide Le, DecodeLedger, EncodeLedger;
    DecodedFields(b);
    EncodeIsLedgerBytes(DecodeLedger(b).value);
    HeaderSplit(b);
  }
}
