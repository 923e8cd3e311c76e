/** The purchase directory and ledger validity (scripts/core/src/state.ts:74-112). */
module Directory {
  import opened Results
  import opened Bytes
  import opened Layout
  import opened State

  // ---------------------------------------------------------------- records

  predicate HasRecords(dir: Bytes, n: nat) {
    RECORD_BYTES * n <= |dir|
  }

  /** Cumulative ticket end of record `i`. */
  function EndAt(dir: Bytes, i: nat): nat
    requires HasRecords(dir, i + 1)
  {
    FromLe(dir[RECORD_BYTES * i..RECORD_BYTES * i + RECORD_OFFSET_BUYER_KEY])
  }

  function KeyAt(dir: Bytes, i: nat): (key: Bytes)
    requires HasRecords(dir, i + 1)
    ensures |key| == KEY_BYTES
  {
    dir[RECORD_BYTES * i + RECORD_OFFSET_BUYER_KEY..RECORD_BYTES * (i + 1)]
  }

  /** Tickets sold before record `i`. */
  function StartAt(dir: Bytes, i: nat): nat
    requires HasRecords(dir, i)
  {
    if i == 0 then 0 else EndAt(dir, i - 1)
  }

  function CountAt(dir: Bytes, i: nat): int
    requires HasRecords(dir, i + 1)
  {
    EndAt(dir, i) - StartAt(dir, i)
  }

  predicate Rises(dir: Bytes, i: nat, sold: int)
    requires HasRecords(dir, i + 1)
  {
    StartAt(dir, i) < EndAt(dir, i) <= sold
  }

  /** Each record sells at least one ticket and none ends past `sold`. */
  predicate Ascending(dir: Bytes, n: nat, sold: int)
    requires HasRecords(dir, n)
  {
    forall i {:trigger Rises(dir, i, sold)} | 0 <= i < n :: Rises(dir, i, sold)
  }

  function RecordAt(dir: Bytes, i: nat): Record
    requires HasRecords(dir, i + 1)
  {
    Record(EndAt(dir, i), KeyAt(dir, i), CountAt(dir, i))
  }

  function RecordList(dir: Bytes, n: nat): (rs: seq<Record>)
    requires HasRecords(dir, n)
    ensures |rs| == n
  {
    seq(n, i requires 0 <= i < n => RecordAt(dir, i))
  }

  function Records(s: Ledger): (r: Result<seq<Record>>)
    ensures r.Ok? ==> s.purchaseCount >= 0 && |r.value| == s.purchaseCount
  {
    var _ :- Check(|s.directory| == s.purchaseCount * RECORD_BYTES, DIRECTORY_LENGTH);
    if Ascending(s.directory, s.purchaseCount, s.sold) then Ok(RecordList(s.directory, s.purchaseCount))
    else Err(INTEGER_RANGE)
  }

  /** The source's pass over the directory, threading the previous end. */
  method ReadRecords(s: Ledger) returns (r: Result<seq<Record>>)
    ensures r == Records(s)
  {
    if |s.directory| != s.purchaseCount * RECORD_BYTES {
      return Err(DIRECTORY_LENGTH);
    }
    hide EndAt, KeyAt, Ascending, RecordList;
    NoRecordsYet(s.directory, s.sold);
    var previous, out := 0, [];
    for i := 0 to s.purchaseCount
      invariant previous == StartAt(s.directory, i)
      invariant Ascending(s.directory, i, s.sold)
      invariant out == RecordList(s.directory, i)
    {
      var at := i * RECORD_BYTES;
      RecordParts(s.directory, i);
      var end := ReadLe(s.directory[at..at + RECORD_OFFSET_BUYER_KEY]);
      if !(previous + 1 <= end <= s.sold) {
        NotRising(s.directory, i, s.purchaseCount, s.sold);
        return Err(INTEGER_RANGE);
      }
      NextRecord(s.directory, i, s.sold);
      out := out + [Record(end, s.directory[at + RECORD_OFFSET_BUYER_KEY..at + RECORD_BYTES], end - previous)];
      previous := end;
    }
    r := Ok(out);
  }

  lemma NoRecordsYet(dir: Bytes, sold: int)
    ensures Ascending(dir, 0, sold) && RecordList(dir, 0) == []
  {
  }

  lemma NotRising(dir: Bytes, i: nat, n: nat, sold: int)
    requires i < n && HasRecords(dir, n) && !Rises(dir, i, sold)
    ensures !Ascending(dir, n, sold)
  {
  }

  lemma NextRecord(dir: Bytes, i: nat, sold: int)
    requires HasRecords(dir, i + 1) && Ascending(dir, i, sold) && Rises(dir, i, sold)
    ensures Ascending(dir, i + 1, sold) && RecordList(dir, i + 1) == RecordList(dir, i) + [RecordAt(dir, i)]
  {
    hide EndAt, KeyAt, StartAt, CountAt;
  }

  /** The raw slices that the pass reads are the record's end and key. */
  lemma RecordParts(dir: Bytes, i: nat)
    requires HasRecords(dir, i + 1)
    ensures i * RECORD_BYTES + RECORD_BYTES <= |dir|
    ensures FromLe(dir[i * RECORD_BYTES..i * RECORD_BYTES + RECORD_OFFSET_BUYER_KEY]) == EndAt(dir, i)
    ensures dir[i * RECORD_BYTES + RECORD_OFFSET_BUYER_KEY..i * RECORD_BYTES + RECORD_BYTES] == KeyAt(dir, i)
  {
  }

  // ---------------------------------------------------------------- validity

  predicate ValidConfig(c: Config) {
    && 3 <= c.ticketCap <= MAX_TICKETS
    && 1 <= c.purchaseCap <= MAX_PURCHASES
    && 3 <= c.minTickets <= c.ticketCap
    && MIN_PRICE <= c.ticketPrice <= (VALUE_LIMIT - DEPOSIT) / c.ticketCap
    && 0 < c.closeEligibleDaa < DAA_LIMIT - TIMEOUT_DELAY
  }

  /** What `validateLedger` accepts. */
  predicate ValidLedger(s: Ledger) {
    && s.phase in {OPEN, SEALED, REFUNDING}
    && |s.ownerKey| == KEY_BYTES
    && ValidConfig(s.config)
    && 0 <= s.sold <= s.config.ticketCap
    && 0 <= s.purchaseCount <= s.config.purchaseCap
    && s.purchaseCount <= s.sold
    && (s.sold == 0 <==> s.purchaseCount == 0)
    && |s.directory| == RECORD_BYTES * s.purchaseCount
    && Ascending(s.directory, s.purchaseCount, s.sold)
    && StartAt(s.directory, s.purchaseCount) == s.sold
    && (if s.phase == REFUNDING then 0 <= s.cursor < s.purchaseCount else s.cursor == 0)
    && (s.phase == SEALED ==> s.sold >= s.config.minTickets)
  }

  function ValidateConfig(c: Config): Result<()> {
    var _ :- Check(3 <= c.ticketCap <= MAX_TICKETS, INTEGER_RANGE);
    var _ :- Check(1 <= c.purchaseCap <= MAX_PURCHASES, INTEGER_RANGE);
    var _ :- Check(3 <= c.minTickets <= c.ticketCap, INTEGER_RANGE);
    var _ :- Check(MIN_PRICE <= c.ticketPrice <= (VALUE_LIMIT - DEPOSIT) / c.ticketCap, TICKET_PRICE);
    var _ :- Check(0 < c.closeEligibleDaa < DAA_LIMIT - TIMEOUT_DELAY, CLOSE_DAA);
    Ok(())
  }

  function ValidateLedger(s: Ledger): Result<()> {
    var _ :- Check(s.phase in {OPEN, SEALED, REFUNDING}, PHASE);
    var _ :- KeyChecked(s.ownerKey);
    var _ :- ValidateConfig(s.config);
    var _ :- Check(0 <= s.sold <= s.config.ticketCap, INTEGER_RANGE);
    var _ :- Check(0 <= s.purchaseCount <= (if s.config.purchaseCap < s.sold then s.config.purchaseCap else s.sold), INTEGER_RANGE);
    var _ :- Check((s.sold == 0) == (s.purchaseCount == 0), EMPTY_MISMATCH);
    var rs :- Records(s);
    var _ :- Check((if rs == [] then 0 else rs[|rs| - 1].end) == s.sold, DIRECTORY_TOTAL);
    var _ :- if s.phase == REFUNDING then Check(0 <= s.cursor <= s.purchaseCount - 1, INTEGER_RANGE)
       else Check(s.cursor == 0, CURSOR_NONREFUND);
    var _ :- Check(s.phase == SEALED ==> s.sold >= s.config.minTickets, DRAW_BELOW_MINIMUM);
    Ok(())
  }

  lemma ValidateIsValid(s: Ledger)
    ensures ValidateLedger(s).Ok? <==> ValidLedger(s)
  {
  }

  lemma ValidRecords(s: Ledger)
    requires ValidLedger(s)
    ensures Records(s) == Ok(RecordList(s.directory, s.purchaseCount))
  {
  }

  lemma ValidIsDecodable(s: Ledger)
    requires ValidLedger(s)
    ensures Decodable(s) && Fits(s)
  {
  }

  // ---------------------------------------------------------------- money

  function PaidTickets(s: Ledger): (t: int)
    requires ValidLedger(s)
    ensures 0 <= t <= s.sold
    ensures s.cursor == 0 ==> t == 0
  {
    EndsMonotone(s.directory, s.purchaseCount, s.sold, s.cursor, s.purchaseCount);
    StartAt(s.directory, s.cursor)
  }

  function ValueOf(s: Ledger): (v: int)
    requires ValidLedger(s)
    ensures DEPOSIT <= v <= VALUE_LIMIT
  {
    ValueBound(s);
    DEPOSIT + Cost(s.sold - PaidTickets(s), s.config.ticketPrice)
  }

  lemma ValueBound(s: Ledger)
    requires ValidLedger(s)
    ensures 0 <= Cost(s.sold - PaidTickets(s), s.config.ticketPrice) <= VALUE_LIMIT - DEPOSIT
  {
    PriceBound(s.sold - PaidTickets(s), s.config.ticketPrice, s.config.ticketCap);
  }

  lemma PriceBound(tickets: int, price: int, cap: int)
    requires 0 <= tickets <= cap && cap > 0
    requires 0 <= price <= (VALUE_LIMIT - DEPOSIT) / cap
    ensures 0 <= Cost(tickets, price) <= VALUE_LIMIT - DEPOSIT
  {
    var q := (VALUE_LIMIT - DEPOSIT) / cap;
    assert tickets * price <= cap * price;
    assert cap * price <= cap * q;
    assert cap * q <= VALUE_LIMIT - DEPOSIT;
  }

  /** Tickets of records `lo` to `hi`. */
  function Tickets(dir: Bytes, lo: nat, hi: nat): int
    requires lo <= hi && HasRecords(dir, hi)
  {
    if lo == hi then 0 else Tickets(dir, lo, hi - 1) + CountAt(dir, hi - 1)
  }

  /** The counts of consecutive records telescope to a difference of ends. */
  lemma {:induction false} TicketsTelescope(dir: Bytes, lo: nat, hi: nat)
    requires lo <= hi && HasRecords(dir, hi)
    ensures Tickets(dir, lo, hi) == StartAt(dir, hi) - StartAt(dir, lo)
  {
    if lo < hi {
      TicketsTelescope(dir, lo, hi - 1);
    }
  }

  lemma {:induction false} EndsMonotone(dir: Bytes, n: nat, sold: int, i: nat, j: nat)
    requires HasRecords(dir, n) && Ascending(dir, n, sold)
    requires i <= j <= n
    ensures StartAt(dir, i) <= StartAt(dir, j)
    ensures i < j ==> StartAt(dir, i) < StartAt(dir, j)
    decreases j
  {
    if i < j {
      EndsMonotone(dir, n, sold, i, j - 1);
      assert Rises(dir, j - 1, sold);
    }
  }

  // ---------------------------------------------------------------- buying

  function RecordBytes(end: nat, key: Bytes): Bytes {
    Le(end, 4) + key
  }

  function AppendPurchase(s: Ledger, quantity: int, buyer: Bytes): Result<Ledger> {
    var _ :- ValidateLedger(s);
    var _ :- Check(s.phase == OPEN, NOT_OPEN);
    var _ :- Check(1 <= quantity <= s.config.ticketCap - s.sold, INTEGER_RANGE);
    var _ :- Check(s.purchaseCount < s.config.purchaseCap, DIRECTORY_FULL);
    var _ :- KeyChecked(buyer);
    var sold := s.sold + quantity;
    var end :- LeChecked(sold, 4);
    Ok(s.(sold := sold, purchaseCount := s.purchaseCount + 1, directory := s.directory + end + buyer))
  }

  /** Appending bytes leaves the records already there alone. */
  lemma RecordsOfPrefix(dir: Bytes, more: Bytes, i: nat)
    requires HasRecords(dir, i + 1)
    ensures EndAt(dir + more, i) == EndAt(dir, i)
    ensures KeyAt(dir + more, i) == KeyAt(dir, i)
  {
    assert (dir + more)[RECORD_BYTES * i..RECORD_BYTES * i + 4] == dir[RECORD_BYTES * i..RECORD_BYTES * i + 4];
    assert (dir + more)[RECORD_BYTES * i + 4..RECORD_BYTES * (i + 1)] == dir[RECORD_BYTES * i + 4..RECORD_BYTES * (i + 1)];
  }

  lemma LastRecord(dir: Bytes, n: nat, end: nat, key: Bytes)
    requires |dir| == RECORD_BYTES * n && |key| == KEY_BYTES && end < 0x1_0000_0000
    ensures EndAt(dir + RecordBytes(end, key), n) == end
    ensures KeyAt(dir + RecordBytes(end, key), n) == key
  {
    var d := dir + RecordBytes(end, key);
    assert d[RECORD_BYTES * n..RECORD_BYTES * n + 4] == Le(end, 4);
    assert d[RECORD_BYTES * n + 4..RECORD_BYTES * (n + 1)] == key;
    Pow256Values();
    FromLeOfLe(end, 4);
  }

  lemma AppendedDirectory(dir: Bytes, n: nat, sold: int, end: nat, key: Bytes)
    requires |dir| == RECORD_BYTES * n && |key| == KEY_BYTES
    requires Ascending(dir, n, sold) && StartAt(dir, n) == sold < end < 0x1_0000_0000
    ensures Ascending(dir + RecordBytes(end, key), n + 1, end)
    ensures StartAt(dir + RecordBytes(end, key), n + 1) == end
    ensures forall i | 0 <= i < n :: RecordAt(dir + RecordBytes(end, key), i) == RecordAt(dir, i)
    ensures RecordAt(dir + RecordBytes(end, key), n) == Record(end, key, end - sold)
  {
    var more := RecordBytes(end, key);
    forall i | 0 <= i < n
      ensures EndAt(dir + more, i) == EndAt(dir, i) && KeyAt(dir + more, i) == KeyAt(dir, i)
    {
      RecordsOfPrefix(dir, more, i);
    }
    LastRecord(dir, n, end, key);
    forall i | 0 <= i < n
      ensures Rises(dir + more, i, end)
    {
      assert Rises(dir, i, sold);
    }
    assert Rises(dir + more, n, end);
  }

  function Bought(s: Ledger, quantity: int, buyer: Bytes): Ledger
    requires 0 <= s.sold + quantity
  {
    s.(sold := s.sold + quantity, purchaseCount := s.purchaseCount + 1,
       directory := s.directory + RecordBytes(s.sold + quantity, buyer))
  }

  predicate CanBuy(s: Ledger, quantity: int, buyer: Bytes) {
    && ValidLedger(s) && s.phase == OPEN && 1 <= quantity <= s.config.ticketCap - s.sold
    && s.purchaseCount < s.config.purchaseCap && |buyer| == KEY_BYTES
  }

  /** Exactly when a purchase is possible, and what it yields. */
  lemma AppendIsBought(s: Ledger, quantity: int, buyer: Bytes)
    ensures AppendPurchase(s, quantity, buyer).Ok? <==> CanBuy(s, quantity, buyer)
    ensures CanBuy(s, quantity, buyer) ==> AppendPurchase(s, quantity, buyer).value == Bought(s, quantity, buyer)
  {
    ValidateIsValid(s);
    Pow256Values();
    if CanBuy(s, quantity, buyer) {
      var end := Le(s.sold + quantity, 4);
      assert s.directory + end + buyer == s.directory + (end + buyer);
    }
  }

  lemma BoughtDirectory(s: Ledger, quantity: int, buyer: Bytes)
    requires CanBuy(s, quantity, buyer)
    ensures var n := Bought(s, quantity, buyer);
            && |n.directory| == RECORD_BYTES * n.purchaseCount
            && Ascending(n.directory, n.purchaseCount, n.sold)
            && StartAt(n.directory, n.purchaseCount) == n.sold
            && RecordList(n.directory, n.purchaseCount)
               == RecordList(s.directory, s.purchaseCount) + [Record(n.sold, buyer, quantity)]
  {
    hide EndAt, KeyAt, Ascending, RecordAt, StartAt;
    AppendedDirectory(s.directory, s.purchaseCount, s.sold, s.sold + quantity, buyer);
    NextStart(s);
    NextList(s, quantity, buyer);
  }

  lemma NextStart(s: Ledger)
    requires ValidLedger(s)
    ensures StartAt(s.directory, s.purchaseCount) == s.sold && Ascending(s.directory, s.purchaseCount, s.sold)
  {
  }

  lemma NextList(s: Ledger, quantity: int, buyer: Bytes)
    requires CanBuy(s, quantity, buyer)
    ensures var n := Bought(s, quantity, buyer);
            && HasRecords(n.directory, n.purchaseCount)
            && RecordList(n.directory, n.purchaseCount)
               == RecordList(s.directory, s.purchaseCount) + [Record(n.sold, buyer, quantity)]
  {
    hide EndAt, KeyAt, Ascending, RecordAt;
    NextStart(s);
    AppendedDirectory(s.directory, s.purchaseCount, s.sold, s.sold + quantity, buyer);
  }

  /** A purchase keeps the ledger valid, adds exactly the price of its tickets, and appends the buyer's record. */
  lemma PurchaseKeepsValid(s: Ledger, quantity: int, buyer: Bytes)
    requires CanBuy(s, quantity, buyer)
    ensures var n := Bought(s, quantity, buyer);
            && ValidLedger(n)
            && ValueOf(n) == ValueOf(s) + Cost(quantity, s.config.ticketPrice)
            && RecordList(n.directory, n.purchaseCount)
               == RecordList(s.directory, s.purchaseCount) + [Record(n.sold, buyer, quantity)]
  {
    BoughtDirectory(s, quantity, buyer);
    Distribute(s.sold, quantity, s.config.ticketPrice);
  }

  lemma Distribute(a: int, b: int, p: int)
    ensures Cost(a + b, p) == Cost(a, p) + Cost(b, p)
  {
  }
}
