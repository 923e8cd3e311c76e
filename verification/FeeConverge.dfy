/** The fee fixed point (scripts/chain/mass.mjs:37-38,50-51,69-110). */
module FeeConverge {
  import opened Division
  import opened Results

  /** Masses of a final draft; the fee mass and the relay floor derive from them. */
  datatype Masses = Masses(compute: nat, transient: nat, storage: nat)

  function Max(a: int, b: int): int { if a < b then b else a }

  function FeeMass(m: Masses): nat {
    Max(m.compute, (m.transient + 1) / 2)
  }

  function RelayFloor(m: Masses): int {
    Max(FeeMass(m) * 100, 100_000)
  }

  function OrderingMass(m: Masses): nat {
    Max(FeeMass(m), m.storage)
  }

  datatype Draft = Draft(fee: int, masses: Masses, storageMass: int)

  datatype Mode = Standard | Priority | Load

  const FEE_CAP := 50_000_000
  const BASE_FEE := 100_000
  const ROUNDS := 24

  datatype Fraction = Fraction(n: nat, d: nat)

  /** The node's rate, an exact fraction of sompi per gram. */
  type Rate = r: Fraction | r.d > 0 witness Fraction(1, 1)

  /** What a caller asks for. */
  datatype Terms = Terms(rate: Rate, cap: int, mode: Mode, minFee: int)

  function Ceiling(mass: nat, rate: Rate): int
  {
    (mass * rate.n + rate.d - 1) / rate.d
  }

  function AtRate(m: Masses, mass: nat, rate: Rate): int
  {
    Max(Ceiling(mass, rate), RelayFloor(m))
  }

  /** What the mempool asks to admit the draft. */
  function Admission(m: Masses, rate: Rate): int
  {
    AtRate(m, FeeMass(m), rate)
  }

  /** What the node's estimate asks to rank it, storage mass included. */
  function Ordering(m: Masses, rate: Rate): int
  {
    AtRate(m, OrderingMass(m), rate)
  }

  /** Within the block limits. */
  predicate Fits(m: Masses) {
    m.compute <= 500_000 && m.transient <= 1_000_000 && m.storage <= 500_000
  }

  datatype Quoted = Quoted(draft: Draft, fee: int, iterations: nat, standardFee: int, loadFee: int, clamped: bool)

  lemma MulMonotone(a: nat, b: nat, n: nat)
    requires a <= b
    ensures a * n <= b * n
  {
  }

  lemma DivMonotone(a: int, b: int, d: int)
    requires 0 <= a <= b && d > 0
    ensures a / d <= b / d
  {
    QuotientsOrdered(a / d, b / d, a % d, b % d, d);
  }

  lemma QuotientsOrdered(q: int, r: int, u: int, v: int, d: int)
    requires 0 <= u < d && 0 <= v < d && q * d + u <= r * d + v
    ensures q <= r
  {
    assert (q - r) * d == q * d - r * d;
    if q > r {
      AtLeastOnce(q - r, d);
    }
  }

  /** Ranking never asks less than admission. */
  lemma OrderingCoversAdmission(m: Masses, rate: Rate)
    ensures Admission(m, rate) <= Ordering(m, rate)
  {
    MulMonotone(FeeMass(m), OrderingMass(m), rate.n);
    DivMonotone(FeeMass(m) * rate.n + rate.d - 1, OrderingMass(m) * rate.n + rate.d - 1, rate.d);
  }

  /** The fees of successive candidates. */
  predicate Climbs(tried: seq<int>) {
    forall i, j | 0 <= i < j < |tried| :: tried[i] < tried[j]
  }

  lemma NothingTried()
    ensures Climbs([])
  {
  }

  lemma ClimbsOn(tried: seq<int>, fee: int)
    requires Climbs(tried) && (tried != [] ==> tried[|tried| - 1] < fee)
    ensures Climbs(tried + [fee])
  {
  }

  /** What a draft of these masses has to pay under the terms. */
  function Required(m: Masses, t: Terms): int {
    Asked(Admission(m, t.rate), Ordering(m, t.rate), t)
  }

  function Asked(standard: int, byOrdering: int, t: Terms): int {
    var asked := if t.mode == Standard then standard else byOrdering;
    Max(if t.mode == Load && asked > t.cap then t.cap else asked, t.minFee)
  }

  /** The required fee of one draft, clamped in load mode and raised to the least fee. */
  method Ask(standard: int, byOrdering: int, t: Terms) returns (required: int, clamped: bool)
    ensures required == Asked(standard, byOrdering, t)
    ensures clamped == (t.mode == Load && byOrdering > t.cap)
  {
    required, clamped := if t.mode == Standard then standard else byOrdering, false;
    if t.mode == Load && required > t.cap {
      required, clamped := t.cap, true;
    }
    if required < t.minFee {
      required := t.minFee;
    }
  }

  /** What the draft made for a candidate has to pay, or why it is refused. */
  function Judged(made: Result<Draft>, fee: int, t: Terms): Result<int> {
    var draft :- made;
    var _ :- Check(draft.fee == fee, DRAFT_FEE_MISMATCH);
    var _ :- Check(Fits(draft.masses), MASS_LIMIT);
    var _ :- Check(Admission(draft.masses, t.rate) <= t.cap && Required(draft.masses, t) <= t.cap, FEE_OVER_CAP);
    Ok(Required(draft.masses, t))
  }

  function QuoteOf(draft: Draft, fee: int, rounds: nat, t: Terms): Quoted {
    var byOrdering := Ordering(draft.masses, t.rate);
    Quoted(draft.(storageMass := draft.masses.storage), fee, rounds, Admission(draft.masses, t.rate), byOrdering,
           t.mode == Load && byOrdering > t.cap && fee < byOrdering)
  }

  /** The candidates from `fee` on, in round `i`. */
  function Climb(makeDraft: int -> Result<Draft>, t: Terms, fee: int, i: nat): Result<Quoted>
    requires i <= ROUNDS
    decreases ROUNDS - i
  {
    if i == ROUNDS then Err(FEE_NOT_CONVERGED)
    else if fee > t.cap then Err(FEE_OVER_CAP)
    else
      var required :- Judged(makeDraft(fee), fee, t);
      if fee >= required then Ok(QuoteOf(makeDraft(fee).value, fee, i + 1, t)) else Climb(makeDraft, t, required, i + 1)
  }

  predicate GoodTerms(t: Terms) {
    0 < t.cap <= 50_000_000 && t.minFee >= 0
  }

  function Floor(t: Terms): int {
    Max(t.minFee, BASE_FEE)
  }

  function Converged(makeDraft: int -> Result<Draft>, t: Terms): Result<Quoted> {
    var _ :- Check(0 < t.cap <= FEE_CAP, FEE_CAP_INVALID);
    var _ :- Check(t.minFee >= 0, FEE_MIN_INVALID);
    Climb(makeDraft, t, Floor(t), 0)
  }

  /** A quote that may be submitted: the draft of its very fee, within bounds, admitted in every mode, ranked where the mode asks
      for it and the cap allows. */
  predicate Acceptable(makeDraft: int -> Result<Draft>, t: Terms, q: Quoted) {
    var made := makeDraft(q.fee);
    && Floor(t) <= q.fee <= t.cap
    && made.Ok? && made.value.fee == q.fee && Fits(made.value.masses)
    && q.draft == made.value.(storageMass := made.value.masses.storage)
    && q.standardFee == Admission(made.value.masses, t.rate) && q.loadFee == Ordering(made.value.masses, t.rate)
    && q.fee >= q.standardFee
    && (t.mode == Priority ==> q.fee >= q.loadFee)
    && (t.mode == Load && !q.clamped ==> q.fee >= q.loadFee)
    && (q.clamped ==> t.mode == Load && q.fee == t.cap < q.loadFee)
  }

  lemma {:induction false} ClimbAcceptable(makeDraft: int -> Result<Draft>, t: Terms, fee: int, i: nat)
    requires i <= ROUNDS && fee >= Floor(t) && Climb(makeDraft, t, fee, i).Ok?
    ensures Acceptable(makeDraft, t, Climb(makeDraft, t, fee, i).value)
    decreases ROUNDS - i
  {
    hide Admission, Ordering, Fits, Acceptable, QuoteOf, Required;
    var required := Judged(makeDraft(fee), fee, t).value;
    if fee >= required {
      QuoteAcceptable(makeDraft, t, fee, i + 1);
    } else {
      ClimbAcceptable(makeDraft, t, required, i + 1);
    }
  }

  lemma QuoteAcceptable(makeDraft: int -> Result<Draft>, t: Terms, fee: int, rounds: nat)
    requires Floor(t) <= fee <= t.cap && Judged(makeDraft(fee), fee, t).Ok? && fee >= Judged(makeDraft(fee), fee, t).value
    ensures Acceptable(makeDraft, t, QuoteOf(makeDraft(fee).value, fee, rounds, t))
  {
    hide Admission, Ordering, Fits;
    OrderingCoversAdmission(makeDraft(fee).value.masses, t.rate);
  }

  lemma OverCap(makeDraft: int -> Result<Draft>, t: Terms, fee: int, i: nat)
    requires i < ROUNDS && fee > t.cap
    ensures Climb(makeDraft, t, fee, i) == Err(FEE_OVER_CAP)
  {
  }

  lemma OutOfRounds(makeDraft: int -> Result<Draft>, t: Terms, fee: int)
    ensures Climb(makeDraft, t, fee, ROUNDS) == Err(FEE_NOT_CONVERGED)
  {
  }

  /** One round of the climb. */
  lemma ClimbRound(makeDraft: int -> Result<Draft>, t: Terms, fee: int, i: nat)
    requires i < ROUNDS && fee <= t.cap
    ensures Climb(makeDraft, t, fee, i)
         == match Judged(makeDraft(fee), fee, t)
            case Err(code) => Err(code)
            case Ok(required) =>
              if fee >= required then Ok(QuoteOf(makeDraft(fee).value, fee, i + 1, t)) else Climb(makeDraft, t, required, i + 1)
  {
    hide Judged, QuoteOf;
  }

  /** The raising loop. Whatever the draft builder does, candidates strictly climb from the floor until the loop stops. */
  method ConvergeFee(makeDraft: int -> Result<Draft>, t: Terms) returns (r: Result<Quoted>, ghost tried: seq<int>)
    ensures r == Converged(makeDraft, t)
    ensures Climbs(tried) && |tried| <= 24
    ensures tried != [] ==> tried[0] == Max(t.minFee, 100_000) && tried[|tried| - 1] <= t.cap <= 50_000_000
    ensures r.Ok? ==> tried != [] && r.value.fee == tried[|tried| - 1] && r.value.iterations == |tried|
    ensures r.Ok? ==> Acceptable(makeDraft, t, r.value)
  {
    hide Admission, Ordering, Fits, Climbs, Climb, Acceptable, Asked;
    tried := [];
    NothingTried();
    if Converged(makeDraft, t).Ok? {
      ClimbAcceptable(makeDraft, t, Floor(t), 0);
    }
    if !(0 < t.cap <= FEE_CAP) {
      return Err(FEE_CAP_INVALID), tried;
    }
    if t.minFee < 0 {
      return Err(FEE_MIN_INVALID), tried;
    }
    var fee := if t.minFee > BASE_FEE then t.minFee else BASE_FEE;
    for i := 0 to ROUNDS
      invariant |tried| == i && Climbs(tried)
      invariant fee >= Floor(t)
      invariant i == 0 ==> fee == Floor(t)
      invariant i > 0 ==> tried[0] == Floor(t) && tried[i - 1] < fee && tried[i - 1] <= t.cap
      invariant Converged(makeDraft, t) == Climb(makeDraft, t, fee, i)
    {
      if fee > t.cap {
        OverCap(makeDraft, t, fee, i);
        return Err(FEE_OVER_CAP), tried;
      }
      ClimbRound(makeDraft, t, fee, i);
      ClimbsOn(tried, fee);
      tried := tried + [fee];
      var made := makeDraft(fee);
      if made.Err? {
        return Err(made.code), tried;
      }
      var draft := made.value;
      if draft.fee != fee {
        return Err(DRAFT_FEE_MISMATCH), tried;
      }
      if !Fits(draft.masses) {
        return Err(MASS_LIMIT), tried;
      }
      var standard, byOrdering := Admission(draft.masses, t.rate), Ordering(draft.masses, t.rate);
      if standard > t.cap {
        return Err(FEE_OVER_CAP), tried;
      }
      var required, clamped := Ask(standard, byOrdering, t);
      if required > t.cap {
        return Err(FEE_OVER_CAP), tried;
      }
      if fee >= required {
        draft := draft.(storageMass := draft.masses.storage);
        return Ok(Quoted(draft, fee, i + 1, standard, byOrdering, clamped && fee < byOrdering)), tried;
      }
      fee := required;
    }
    OutOfRounds(makeDraft, t, fee);
    r := Err(FEE_NOT_CONVERGED);
  }

  /** In load mode the fee reaches the node's estimate, or else the cap; in every mode it covers the relay floor of the draft
      that pays it. */
  lemma QuoteCovers(makeDraft: int -> Result<Draft>, t: Terms, q: Quoted)
    requires Acceptable(makeDraft, t, q)
    ensures t.mode == Load ==> q.fee >= (if q.loadFee <= t.cap then q.loadFee else t.cap)
    ensures q.fee >= RelayFloor(q.draft.masses) >= 100_000
    ensures q.fee >= FeeMass(q.draft.masses) * 100 && q.fee >= t.minFee
  {
    hide Ceiling;
  }

  // ---------------------------------------------------------------- what a quoted fee is worth to the node

  lemma CeilingCovers(mass: nat, rate: Rate)
    ensures Ceiling(mass, rate) * rate.d >= mass * rate.n
    ensures forall fee: nat | fee * rate.d >= mass * rate.n :: fee >= Ceiling(mass, rate)
  {
    var top := mass * rate.n + rate.d - 1;
    var q, u := top / rate.d, top % rate.d;
    assert top == rate.d * q + u;
    assert q * rate.d == rate.d * q;
    forall fee: nat | fee * rate.d >= mass * rate.n
      ensures fee >= Ceiling(mass, rate)
    {
      BelowQuotient(fee, q, rate.d);
    }
  }

  lemma BelowQuotient(fee: nat, q: int, d: nat)
    ensures fee < q ==> fee * d + d <= q * d
  {
    if fee < q {
      MulMonotone(fee + 1, q, d);
      assert (fee + 1) * d == fee * d + d;
    }
  }

  /** A fee that covers a mass at the node's rate: at least `n` / `d` for each gram. */
  predicate Worth(fee: int, mass: nat, rate: Rate) {
    fee * rate.d >= mass * rate.n
  }

  lemma WorthMore(fee: int, more: int, mass: nat, less: nat, rate: Rate)
    requires fee <= more && less <= mass && Worth(fee, mass, rate)
    ensures Worth(more, less, rate)
  {
    MulMonotone(less, mass, rate.n);
    assert (more - fee) * rate.d >= 0;
    assert more * rate.d == fee * rate.d + (more - fee) * rate.d;
  }

  /** A quoted fee is within the cap, and the masses of its draft within the block limits. It is worth the compute and the halved transient mass of its draft at the node's rate, and, where the mode
      asks for it and the cap allows, its storage mass too. */
  lemma QuoteWorth(makeDraft: int -> Result<Draft>, t: Terms, q: Quoted)
    requires Acceptable(makeDraft, t, q)
    ensures var m := q.draft.masses;
            && t.minFee <= q.fee <= t.cap && q.fee >= 100_000
            && m.compute <= 500_000 && m.transient <= 1_000_000 && m.storage <= 500_000
            && q.fee * t.rate.d >= m.compute * t.rate.n
            && 2 * (q.fee * t.rate.d) >= m.transient * t.rate.n
            && (t.mode == Priority || (t.mode == Load && !q.clamped) ==> q.fee * t.rate.d >= m.storage * t.rate.n)
  {
    hide Ceiling;
    var m, halved := q.draft.masses, (q.draft.masses.transient + 1) / 2;
    CeilingCovers(FeeMass(m), t.rate);
    CeilingCovers(OrderingMass(m), t.rate);
    WorthMore(Ceiling(FeeMass(m), t.rate), q.fee, FeeMass(m), m.compute, t.rate);
    WorthMore(Ceiling(FeeMass(m), t.rate), q.fee, FeeMass(m), halved, t.rate);
    TwiceHalved(q.fee * t.rate.d, m.transient, t.rate.n);
    if t.mode == Priority || (t.mode == Load && !q.clamped) {
      WorthMore(Ceiling(OrderingMass(m), t.rate), q.fee, OrderingMass(m), m.storage, t.rate);
    }
  }

  lemma TwiceHalved(worth: int, mass: nat, n: nat)
    requires worth >= (mass + 1) / 2 * n
    ensures 2 * worth >= mass * n
  {
    MulMonotone(mass, 2 * ((mass + 1) / 2), n);
    assert 2 * ((mass + 1) / 2) * n == 2 * ((mass + 1) / 2 * n);
  }

  /** What every fee has to reach: the relay floors, and the worth of compute and halved transient mass at the node's rate. */
  predicate Admits(fee: int, m: Masses, rate: Rate) {
    && fee >= 100_000 && fee >= 100 * m.compute && fee >= 100 * ((m.transient + 1) / 2)
    && fee * rate.d >= m.compute * rate.n && fee * rate.d >= (m.transient + 1) / 2 * rate.n
  }

  /** The admission fee is the least that reaches it. */
  lemma AdmissionIsLeast(m: Masses, rate: Rate, fee: nat)
    ensures fee >= Admission(m, rate) <==> Admits(fee, m, rate)
  {
    hide Ceiling;
    CeilingCovers(FeeMass(m), rate);
    if fee >= Admission(m, rate) {
      WorthMore(Ceiling(FeeMass(m), rate), fee, FeeMass(m), m.compute, rate);
      WorthMore(Ceiling(FeeMass(m), rate), fee, FeeMass(m), (m.transient + 1) / 2, rate);
    }
  }

  /** The ranking fee is the least that is also worth the storage mass. */
  lemma OrderingIsLeast(m: Masses, rate: Rate, fee: nat)
    ensures fee >= Ordering(m, rate) <==> Admits(fee, m, rate) && fee * rate.d >= m.storage * rate.n
  {
    hide Ceiling;
    CeilingCovers(OrderingMass(m), rate);
    if fee >= Ordering(m, rate) {
      WorthMore(Ceiling(OrderingMass(m), rate), fee, OrderingMass(m), m.compute, rate);
      WorthMore(Ceiling(OrderingMass(m), rate), fee, OrderingMass(m), (m.transient + 1) / 2, rate);
      WorthMore(Ceiling(OrderingMass(m), rate), fee, OrderingMass(m), m.storage, rate);
    }
  }

  /** What a fee has to reach in each mode; in load mode the cap is enough. */
  predicate Meets(fee: int, m: Masses, t: Terms) {
    && fee >= t.minFee
    && match t.mode
       case Standard => Admits(fee, m, t.rate)
       case Priority => Admits(fee, m, t.rate) && Worth(fee, m.storage, t.rate)
       case Load => fee >= t.cap || (Admits(fee, m, t.rate) && Worth(fee, m.storage, t.rate))
  }

  /** The required fee is the least that does. */
  lemma RequiredIsLeast(m: Masses, t: Terms, fee: nat)
    ensures fee >= Required(m, t) <==> Meets(fee, m, t)
  {
    hide Admission, Ordering, Admits;
    AdmissionIsLeast(m, t.rate, fee);
    OrderingIsLeast(m, t.rate, fee);
  }

  // ---------------------------------------------------------------- when a quote is returned

  /** Every candidate is accepted by the checks, and what it has to pay is among `asked`. */
  ghost predicate AsksOnly(makeDraft: int -> Result<Draft>, t: Terms, asked: set<int>) {
    forall fee | Floor(t) <= fee <= t.cap :: Judged(makeDraft(fee), fee, t).Ok? && Judged(makeDraft(fee), fee, t).value in asked
  }

  function Above(asked: set<int>, fee: int): set<int> {
    set a | a in asked && a > fee
  }

  lemma FewerAbove(asked: set<int>, fee: int, higher: int)
    requires higher in asked && higher > fee
    ensures |Above(asked, higher)| < |Above(asked, fee)|
  {
    assert Above(asked, higher) <= Above(asked, fee) - {higher};
    SubsetSize(Above(asked, higher), Above(asked, fee) - {higher});
  }

  lemma SubsetSize(a: set<int>, b: set<int>)
    requires a <= b
    ensures |a| <= |b|
  {
    assert a + (b - a) == b;
  }

  /** Each round uses up one of the fees that are asked for. */
  lemma {:induction false} ClimbEnds(makeDraft: int -> Result<Draft>, t: Terms, asked: set<int>, fee: int, i: nat)
    requires AsksOnly(makeDraft, t, asked) && Floor(t) <= fee <= t.cap && i + |Above(asked, fee)| < ROUNDS
    ensures var r := Climb(makeDraft, t, fee, i); r.Ok? && r.value.iterations <= i + |Above(asked, fee)| + 1
    decreases ROUNDS - i
  {
    hide Judged, Floor, QuoteOf;
    var required := Judged(makeDraft(fee), fee, t).value;
    RequiredInCap(makeDraft(fee), fee, t);
    if fee < required {
      FewerAbove(asked, fee, required);
      ClimbEnds(makeDraft, t, asked, required, i + 1);
    } else {
      QuoteRounds(makeDraft(fee).value, fee, i + 1, t);
    }
  }

  lemma RequiredInCap(made: Result<Draft>, fee: int, t: Terms)
    requires Judged(made, fee, t).Ok?
    ensures Judged(made, fee, t).value <= t.cap && made.Ok?
  {
    hide Admission, Fits, Required;
  }

  lemma QuoteRounds(draft: Draft, fee: int, rounds: nat, t: Terms)
    ensures QuoteOf(draft, fee, rounds, t).iterations == rounds && QuoteOf(draft, fee, rounds, t).fee == fee
  {
  }

  /** A builder whose accepted drafts ask for at most 23 different fees is quoted, within one round more than there are fees. */
  lemma FewFeesConverge(makeDraft: int -> Result<Draft>, t: Terms, asked: set<int>)
    requires GoodTerms(t) && Floor(t) <= t.cap && AsksOnly(makeDraft, t, asked) && |asked| < 24
    ensures Converged(makeDraft, t).Ok? && Converged(makeDraft, t).value.iterations <= |asked| + 1
  {
    hide AsksOnly, Climb;
    SubsetSize(Above(asked, Floor(t)), asked);
    ClimbEnds(makeDraft, t, asked, Floor(t), 0);
  }

  /** A builder whose draft at each fee weighs just too much for it. */
  function Stair(fee: int): Result<Draft> {
    Ok(Draft(fee, Masses(if fee >= 0 then fee / 100 + 1 else 0, 0, 0), 0))
  }

  /** More fees than that can go unquoted: a builder that asks for a little more each time is given up after 24 rounds. */
  lemma StairNotQuoted()
    ensures Converged(Stair, Terms(Fraction(1, 1), 50_000_000, Standard, 0)) == Err(FEE_NOT_CONVERGED)
  {
    StairClimbs(100_000, 0);
  }

  lemma {:induction false} StairClimbs(fee: nat, i: nat)
    requires i <= 24 && fee == 100_000 + 100 * i
    ensures Climb(Stair, Terms(Fraction(1, 1), 50_000_000, Standard, 0), fee, i) == Err(FEE_NOT_CONVERGED)
    decreases 24 - i
  {
    hide Judged, QuoteOf;
    var t := Terms(Fraction(1, 1), 50_000_000, Standard, 0);
    if i < 24 {
      assert Judged(Stair(fee), fee, t) == Ok(fee + 100) by { StairAsks(fee, i); }
      StairClimbs(fee + 100, i + 1);
    }
  }

  lemma StairAsks(fee: nat, i: nat)
    requires i < 24 && fee == 100_000 + 100 * i
    ensures Judged(Stair(fee), fee, Terms(Fraction(1, 1), 50_000_000, Standard, 0)) == Ok(fee + 100)
  {
    assert fee / 100 + 1 == 1001 + i;
  }

  /** The drafts of all candidates have the same masses. */
  ghost predicate SameMasses(makeDraft: int -> Result<Draft>, t: Terms, m: Masses) {
    forall fee | Floor(t) <= fee <= t.cap :: makeDraft(fee).Ok? && makeDraft(fee).value.fee == fee && makeDraft(fee).value.masses == m
  }

  /** Where the masses do not depend on the fee, a quote is returned exactly when they fit and the cap covers the least fee, the
      admission and, in priority mode, the ranking; it comes within two rounds, and its fee is the least that meets the terms. */
  lemma SteadyConverges(makeDraft: int -> Result<Draft>, t: Terms, m: Masses)
    requires GoodTerms(t) && SameMasses(makeDraft, t, m)
    ensures Converged(makeDraft, t).Ok?
       <==> && m.compute <= 500_000 && m.transient <= 1_000_000 && m.storage <= 500_000
            && t.minFee <= t.cap && Admits(t.cap, m, t.rate) && (t.mode == Priority ==> Worth(t.cap, m.storage, t.rate))
    ensures Converged(makeDraft, t).Ok? ==>
              && Converged(makeDraft, t).value.iterations <= 2
              && forall fee: nat :: fee >= Converged(makeDraft, t).value.fee <==> Meets(fee, m, t)
  {
    hide Admission, Ordering, Admits, Meets;
    AdmissionIsLeast(m, t.rate, t.cap);
    OrderingIsLeast(m, t.rate, t.cap);
    forall fee: nat
      ensures fee >= Required(m, t) <==> Meets(fee, m, t)
    {
      RequiredIsLeast(m, t, fee);
    }
    AdmissionFloor(m, t.rate);
    OrderingCoversAdmission(m, t.rate);
    var floor, required := Floor(t), Required(m, t);
    assert Climb(makeDraft, t, floor, 0) ==
           if floor > t.cap then Err(FEE_OVER_CAP) else SteadyRound(makeDraft, t, m, floor, 0);
    if floor < required <= t.cap {
      assert Climb(makeDraft, t, required, 1) == SteadyRound(makeDraft, t, m, required, 1);
    }
  }

  lemma AdmissionFloor(m: Masses, rate: Rate)
    ensures Admission(m, rate) >= BASE_FEE
  {
    hide Ceiling;
  }

  /** A round on a draft of the masses `m`. */
  function SteadyRound(makeDraft: int -> Result<Draft>, t: Terms, m: Masses, fee: int, i: nat): Result<Quoted>
    requires i < ROUNDS
  {
    if !Fits(m) then Err(MASS_LIMIT)
    else if Admission(m, t.rate) > t.cap || Required(m, t) > t.cap then Err(FEE_OVER_CAP)
    else if fee >= Required(m, t) then
      var made := makeDraft(fee);
      if made.Ok? then Ok(QuoteOf(made.value, fee, i + 1, t)) else Err(made.code)
    else Climb(makeDraft, t, Required(m, t), i + 1)
  }

  /** A higher fee never asks for less, as where the change that pays it shrinks and its storage mass grows. */
  ghost predicate Rising(makeDraft: int -> Result<Draft>, t: Terms) {
    forall f, g | f <= g && Judged(makeDraft(f), f, t).Ok? && Judged(makeDraft(g), g, t).Ok? ::
      Judged(makeDraft(f), f, t).value <= Judged(makeDraft(g), g, t).value
  }

  /** A fee at or above the floor that covers what its own draft asks for. */
  predicate Covers(makeDraft: int -> Result<Draft>, t: Terms, fee: int) {
    Floor(t) <= fee <= t.cap && Judged(makeDraft(fee), fee, t).Ok? && Judged(makeDraft(fee), fee, t).value <= fee
  }

  /** With such a builder no fee that covers itself is lower than the one quoted. */
  lemma LeastFee(makeDraft: int -> Result<Draft>, t: Terms, fee: int)
    requires Rising(makeDraft, t) && Covers(makeDraft, t, fee) && Converged(makeDraft, t).Ok?
    ensures Converged(makeDraft, t).value.fee <= fee && Covers(makeDraft, t, Converged(makeDraft, t).value.fee)
  {
    ClimbStaysBelow(makeDraft, t, fee, Floor(t), 0);
  }

  lemma {:induction false} ClimbStaysBelow(makeDraft: int -> Result<Draft>, t: Terms, fee: int, from: int, i: nat)
    requires i <= ROUNDS && Floor(t) <= from <= fee
    requires Rising(makeDraft, t) && Covers(makeDraft, t, fee) && Climb(makeDraft, t, from, i).Ok?
    ensures Climb(makeDraft, t, from, i).value.fee <= fee && Covers(makeDraft, t, Climb(makeDraft, t, from, i).value.fee)
    decreases ROUNDS - i
  {
    hide Judged, QuoteOf, Floor;
    var required := Judged(makeDraft(from), from, t).value;
    RequiredInCap(makeDraft(from), from, t);
    if from < required {
      ClimbStaysBelow(makeDraft, t, fee, required, i + 1);
    } else {
      QuoteRounds(makeDraft(from).value, from, i + 1, t);
    }
  }
}
