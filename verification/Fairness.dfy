/** How many of the 2^56 sample values select each record (scripts/core/src/protocol.ts:29-41, contracts/sealed.sil:193-202). */
module Fairness {
  import opened Division
  import opened Results
  import opened Bytes
  import opened Layout
  import opened State
  import opened Directory
  import opened Scripts
  import opened Draws
  import opened ContractSteps
  import opened Protocol

  /** The record that a sample value selects, if it is not rejected. */
  function Selected(s: Ledger, value: nat): Result<nat>
    requires s.sold > 0
  {
    if value < Limit(s.sold) then RecordOfTicket(s, value % s.sold) else Err(SAMPLE_REJECTED)
  }

  /** Of the values below `n`, how many select record `i`. */
  function Tally(s: Ledger, i: nat, n: nat): nat
    requires s.sold > 0
  {
    if n == 0 then 0 else Tally(s, i, n - 1) + if Selected(s, n - 1) == Ok(i) then 1 else 0
  }

  /** Of the values below `n`, how many select no record. */
  function Rejected(s: Ledger, n: nat): nat
    requires s.sold > 0
  {
    if n == 0 then 0 else Rejected(s, n - 1) + if Selected(s, n - 1).Err? then 1 else 0
  }

  /** The draw uses exactly this selection. */
  lemma DrawSelects(h: Hashes, x: Snapshot, s: Ledger, proof: Bytes, accessor: Accessor)
    requires Decodable(s) && x.tip.index >= 0 && s.sold > 0 && DrawWinner(h, x, s, proof, accessor).Ok?
    ensures var w := DrawWinner(h, x, s, proof, accessor).value;
            Selected(s, SampleValue(h, w.draw.seed)) == Ok(w.record)
  {
    hide AuthenticateDraw, RecordOfTicket, SampleValue;
  }

  /** How much of a window `[lo, hi)` lies below `r`. */
  function Within(r: int, lo: int, hi: int): int {
    if r <= lo then 0 else if r <= hi then r - lo else hi - lo
  }

  lemma NextDigit(n: nat, m: nat)
    requires m > 0
    ensures n % m + 1 < m ==> (n + 1) / m == n / m && (n + 1) % m == n % m + 1
    ensures n % m + 1 == m ==> (n + 1) / m == n / m + 1 && (n + 1) % m == 0
  {
    var q, r := n / m, n % m;
    assert n == q * m + r;
    if r + 1 < m {
      Quotient(n + 1, m, q, r + 1);
    } else {
      assert (q + 1) * m == q * m + m;
      Quotient(n + 1, m, q + 1, 0);
    }
  }

  lemma Quotient(n: nat, m: nat, q: nat, r: nat)
    requires m > 0 && r < m && n == q * m + r
    ensures n / m == q && n % m == r
  {
    SameQuotient(q, r, n / m, n % m, m);
  }

  /** Below the limit, every full turn of the tickets gives a record its window, and nothing else does. */
  lemma {:induction false} TallyTo(s: Ledger, i: nat, n: nat)
    requires ValidLedger(s) && s.sold > 0 && i < s.purchaseCount && n <= Limit(s.sold)
    ensures Tally(s, i, n)
         == Cost(n / s.sold, CountAt(s.directory, i)) + Within(n % s.sold, StartAt(s.directory, i), EndAt(s.directory, i))
    ensures Rejected(s, n) == 0
  {
    hide ValidLedger, StartAt, EndAt, RecordOfTicket, Limit;
    ValidParts(s);
    WindowOf(s, i);
    if n > 0 {
      TallyTo(s, i, n - 1);
      var ticket := (n - 1) % s.sold;
      NextDigit(n - 1, s.sold);
      WinnerUnique(s, ticket, i);
      WinnerExists(s, ticket);
      Distribute((n - 1) / s.sold, 1, CountAt(s.directory, i));
    } else {
      assert 0 / s.sold == 0 && 0 % s.sold == 0;
    }
  }

  lemma WindowOf(s: Ledger, i: nat)
    requires ValidLedger(s) && i < s.purchaseCount
    ensures 0 <= StartAt(s.directory, i) < EndAt(s.directory, i) <= s.sold
    ensures CountAt(s.directory, i) == EndAt(s.directory, i) - StartAt(s.directory, i)
  {
    hide EndAt, ValidConfig;
    assert Rises(s.directory, i, s.sold);
  }

  lemma {:induction false} TallyBeyond(s: Ledger, i: nat, n: nat)
    requires s.sold > 0 && n >= Limit(s.sold)
    ensures Tally(s, i, n) == Tally(s, i, Limit(s.sold))
    ensures Rejected(s, n) == Rejected(s, Limit(s.sold)) + n - Limit(s.sold)
    decreases n
  {
    hide RecordOfTicket, Limit;
    if n > Limit(s.sold) {
      TallyBeyond(s, i, n - 1);
    }
  }

  lemma LimitDivides(sold: nat)
    requires sold > 0
    ensures Limit(sold) % sold == 0 && SPACE - Limit(sold) == SPACE % sold
  {
    Quotient(Limit(sold), sold, SPACE / sold, 0);
  }

  /** Of the 2^56 values, exactly count × (limit / sold) select each record, in proportion to its tickets, and exactly
      2^56 mod sold are rejected. */
  lemma FairDraw(s: Ledger, i: nat)
    requires ValidLedger(s) && i < s.purchaseCount
    ensures s.sold > 0
    ensures Tally(s, i, SPACE) == CountAt(s.directory, i) * (Limit(s.sold) / s.sold)
    ensures Rejected(s, SPACE) == SPACE % s.sold
  {
    hide ValidLedger, StartAt, EndAt, Tally, Rejected, Limit;
    ValidParts(s);
    LimitDivides(s.sold);
    TallyTo(s, i, Limit(s.sold));
    TallyBeyond(s, i, SPACE);
    WindowOf(s, i);
  }
}
