/** A run of the reservation journal, made of the engine's own writes, that mixes two fee-bump families
    (scripts/round/engine.mjs:379-387,546-567,588-706,772-789,893-908). */
module FamilyMix {
  import opened Results
  import opened Bytes
  import opened Scripts
  import opened Tx
  import opened Reservations

  // ---------------------------------------------------------------- what the engine writes

  /** Statuses that a recheck leaves in place until acceptance is proved again. */
  predicate Sticky(s: Status) {
    s in {REJECTED, REPLACED, SUPERSEDED, CONFLICTED, DRIFTED}
  }

  predicate Tracked(s: Status) {
    s in {SUBMITTED, PENDING, UNKNOWN}
  }

  predicate SameProfile(a: Key, b: Key) {
    a.network == b.network && a.profile == b.profile
  }

  /** A submitted replacement of the row. */
  predicate ReplacedIn(rows: Rows, key: Key, newer: Bytes)
    requires key in rows
  {
    exists k | k in rows :: SameProfile(k, key) && k.txid == newer && rows[k].status == SUBMITTED
                            && rows[k].replaceRoot == Some(Root(rows[key]))
  }

  /** An accepted member of the row's family, other than itself. */
  predicate SettledIn(rows: Rows, key: Key)
    requires key in rows
  {
    exists k | k in rows :: SameProfile(k, key) && k.txid != key.txid && rows[k].status == ACCEPTED
                            && (rows[k].txid == Root(rows[key]) || rows[k].replaceRoot == Some(Root(rows[key])))
  }

  /** Status writes of the engine: a submit that is answered, the start of a recheck, a search that finds nothing, one that finds
      the transaction accepted, a confirmed diagnosis, a link to the replacement, and the settling of a family. */
  predicate EngineWrites(rows: Rows, key: Key, status: Status, replacedBy: Option<Bytes>)
    requires key in rows
  {
    var r := rows[key];
    && (status != REPLACED ==> replacedBy == r.replacedBy)
    && match status
       case SUBMITTED => r.status == SUBMITTING
       case RECHECKING => !Sticky(r.status) && r.status != ARCHIVED
       case PENDING | UNKNOWN => r.status == RECHECKING
       case CONFIRMING | ACCEPTED => r.status == RECHECKING || Sticky(r.status)
       case CONFLICTED | DRIFTED => Tracked(r.status) && r.replacedBy == None
       case REPLACED => r.status !in {ACCEPTED, CONFIRMING} && replacedBy.Some? && ReplacedIn(rows, key, replacedBy.value)
       case SUPERSEDED => r.status !in {ACCEPTED, CONFIRMING, SUPERSEDED, ARCHIVED} && SettledIn(rows, key)
       case _ => false
  }

  /** The engine records a replacement only of a tracked row of its own profile, and names a root in no other record. */
  predicate EngineInserts(rows: Rows, key: Key, record: Record, bumps: Option<Key>) {
    match bumps
    case None => record.replaceRoot == None
    case Some(target) => target in rows && SameProfile(target, key) && Tracked(rows[target].status)
  }

  predicate EngineMakes(rows: Rows, x: Step) {
    match x
    case Insert(_, key, record, _, bumps) => EngineInserts(rows, key, record, bumps)
    case Update(key, status, replacedBy) => key in rows && EngineWrites(rows, key, status, replacedBy)
  }

  ghost predicate IsEngineRun(states: seq<State>, steps: seq<Step>) {
    && IsRun(states, steps)
    && forall i {:trigger steps[i]} | 0 <= i < |steps| :: EngineMakes(states[i].rows, steps[i])
  }

  ghost predicate Leads(s: State, x: Step, t: State) {
    Allowed(s, x) && EngineMakes(s.rows, x) && Applied(s, x) == t
  }

  lemma Extend(states: seq<State>, steps: seq<Step>, x: Step, t: State)
    requires IsEngineRun(states, steps) && Leads(states[|steps|], x, t)
    ensures IsEngineRun(states + [t], steps + [x])
  {
    hide Allowed, Applied, EngineMakes;
  }

  // ---------------------------------------------------------------- one profile

  /** An insert that the engine of this profile makes; nothing is asked of status updates. */
  predicate InsertsUnder(profile: Bytes, rows: Rows, x: Step) {
    x.Insert? ==> x.key.profile == profile && EngineInserts(rows, x.key, x.record, x.bumps)
  }

  predicate OnlyProfile(profile: Bytes, rows: Rows) {
    forall k | k in rows :: k.profile == profile
  }

  lemma ProfileKept(profile: Bytes, s: State, x: Step)
    requires OnlyProfile(profile, s.rows) && Allowed(s, x) && InsertsUnder(profile, s.rows, x)
    ensures OnlyProfile(profile, Applied(s, x).rows) && NewId(s.rows, x)
  {
  }

  /** Under one profile the engine cannot mix families, whatever it revives: there one id is one key. */
  lemma {:induction false} OneProfileIsSafe(profile: Bytes, states: seq<State>, steps: seq<Step>, n: nat)
    requires IsRun(states, steps) && n <= |steps|
    requires forall i {:trigger steps[i]} | 0 <= i < |steps| :: InsertsUnder(profile, states[i].rows, steps[i])
    ensures OnlyProfile(profile, states[n].rows) && Families(states[n])
    ensures forall i {:trigger steps[i]} | 0 <= i < n :: NewId(states[i].rows, steps[i])
  {
    hide Families, Allowed, Applied, NewId, InsertsUnder;
    if n > 0 {
      hide OnlyProfile;
      OneProfileIsSafe(profile, states, steps, n - 1);
      assert InsertsUnder(profile, states[n - 1].rows, steps[n - 1]);
      ProfileKept(profile, states[n - 1], steps[n - 1]);
    }
    UniqueIdsAreSafe(states, steps, n);
  }

  // ---------------------------------------------------------------- the rows of the run

  /** A 32-byte identifier. */
  function Id(n: Byte): (d: Bytes)
    ensures |d| == 32 && d[0] == n
  {
    [n] + Zeros(31)
  }

  const NETWORK: Bytes := Id(0)
  const SHARED: seq<Outpoint> := [Outpoint(Id(9), 0)]

  // One id under two profiles, and two more
  const T: Key := Key(NETWORK, Id(1), Id(3))
  const F: Key := Key(NETWORK, Id(2), Id(3))
  const X: Key := Key(NETWORK, Id(2), Id(4))
  const N: Key := Key(NETWORK, Id(1), Id(5))

  function RowT(status: Status): Record { Record(Id(3), status, SHARED, None, None) }

  function RowX(status: Status, newer: Option<Bytes>): Record { Record(Id(4), status, SHARED, None, newer) }

  function RowF(status: Status): Record { Record(Id(3), status, SHARED, Some(Id(4)), None) }

  const ROW_N: Record := Record(Id(5), SUBMITTING, SHARED, Some(Id(3)), None)

  function Stage(t: Option<Record>, x: Option<Record>, f: Option<Record>): Rows {
    var none: Rows := map[];
    var a := if t.Some? then none[T := t.value] else none;
    var b := if x.Some? then a[X := x.value] else a;
    if f.Some? then b[F := f.value] else b
  }

  lemma IdsDiffer()
    ensures Id(1) != Id(2) && Id(3) != Id(4) && Id(3) != Id(5) && Id(4) != Id(5)
    ensures T != X && T != F && T != N && X != F && X != N && F != N
  {
    assert Id(1)[0] != Id(2)[0] && Id(3)[0] != Id(4)[0] && Id(3)[0] != Id(5)[0] && Id(4)[0] != Id(5)[0];
  }

  /** An insert goes through when every row is released or exempt. */
  lemma InsertLeads(s: State, key: Key, record: Record, bumps: Option<Key>)
    requires key !in s.rows && key.network == NETWORK && |key.profile| == |key.txid| == 32
    requires record.txid == key.txid && record.status == SUBMITTING && record.inputs == SHARED
    requires ReplacementChecked(s.rows, record, bumps).Ok? && EngineInserts(s.rows, key, record, bumps)
    requires forall k | k in s.rows :: Released(s.rows[k].status) || k in Except(s.rows, bumps)
    ensures Leads(s, Insert(NETWORK, key, record, true, bumps), State(s.rows[key := record], s.everReleased))
  {
    hide Id, ReplacementChecked, Except, EngineInserts;
    assert ReservedInputs(s.rows, NETWORK, Except(s.rows, bumps)) == {};
  }

  lemma UpdateLeads(s: State, key: Key, status: Status, newer: Option<Bytes>, rows: Rows)
    requires key in s.rows && EngineWrites(s.rows, key, status, newer)
    requires rows == s.rows[key := s.rows[key].(status := status, replacedBy := newer)]
    ensures Leads(s, Update(key, status, newer), State(rows, if Released(status) then s.everReleased + {key} else s.everReleased))
  {
    hide EngineWrites;
  }

  lemma MoveT(x: Option<Record>, f: Option<Record>, past: set<Key>, was: Status, status: Status)
    requires EngineWrites(Stage(Some(RowT(was)), x, f), T, status, None)
    ensures Leads(State(Stage(Some(RowT(was)), x, f), past), Update(T, status, None),
                  State(Stage(Some(RowT(status)), x, f), if Released(status) then past + {T} else past))
  {
    hide Id, EngineWrites, Leads;
    IdsDiffer();
    UpdateLeads(State(Stage(Some(RowT(was)), x, f), past), T, status, None, Stage(Some(RowT(status)), x, f));
  }

  lemma MoveX(t: Option<Record>, f: Option<Record>, past: set<Key>, was: Status, from: Option<Bytes>, status: Status,
              newer: Option<Bytes>)
    requires EngineWrites(Stage(t, Some(RowX(was, from)), f), X, status, newer)
    ensures Leads(State(Stage(t, Some(RowX(was, from)), f), past), Update(X, status, newer),
                  State(Stage(t, Some(RowX(status, newer)), f), if Released(status) then past + {X} else past))
  {
    hide Id, EngineWrites, Leads;
    IdsDiffer();
    UpdateLeads(State(Stage(t, Some(RowX(was, from)), f), past), X, status, newer, Stage(t, Some(RowX(status, newer)), f));
  }

  lemma MoveF(t: Option<Record>, x: Option<Record>, past: set<Key>, was: Status, status: Status)
    requires EngineWrites(Stage(t, x, Some(RowF(was))), F, status, None)
    ensures Leads(State(Stage(t, x, Some(RowF(was))), past), Update(F, status, None),
                  State(Stage(t, x, Some(RowF(status))), if Released(status) then past + {F} else past))
  {
    hide Id, EngineWrites, Leads;
    IdsDiffer();
    UpdateLeads(State(Stage(t, x, Some(RowF(was))), past), F, status, None, Stage(t, x, Some(RowF(status))));
  }

  // ---------------------------------------------------------------- the run

  /** `T` is submitted, not found, and diagnosed as conflicting: its inputs are free. */
  const LOST: seq<Step> := [
    Insert(NETWORK, T, RowT(SUBMITTING), true, None),
    Update(T, SUBMITTED, None), Update(T, RECHECKING, None), Update(T, UNKNOWN, None), Update(T, CONFLICTED, None)]

  /** Under the other profile `X` spends them, and is replaced by `F`, the very transaction of `T`. */
  const REPLACING: seq<Step> := [
    Insert(NETWORK, X, RowX(SUBMITTING, None), true, None),
    Update(X, SUBMITTED, None),
    Insert(NETWORK, F, RowF(SUBMITTING), true, Some(X)),
    Update(F, SUBMITTED, None), Update(X, REPLACED, Some(Id(3)))]

  /** The transaction is accepted, which both profiles find, and settles the family of `X`. */
  const SETTLING: seq<Step> := [
    Update(T, CONFIRMING, None), Update(F, RECHECKING, None), Update(F, ACCEPTED, None),
    Update(X, SUPERSEDED, Some(Id(3)))]

  /** The chain reorganises; `T` is pending again and is replaced by `N`. */
  const RETURNING: seq<Step> := [
    Update(F, RECHECKING, None), Update(T, RECHECKING, None), Update(T, PENDING, None),
    Insert(NETWORK, N, ROW_N, true, Some(T))]

  const MIXING: seq<Step> := LOST + REPLACING + SETTLING + RETURNING

  const AFTER_LOST: State := State(Stage(Some(RowT(CONFLICTED)), None, None), {T})
  const AFTER_REPLACING: State :=
    State(Stage(Some(RowT(CONFLICTED)), Some(RowX(REPLACED, Some(Id(3)))), Some(RowF(SUBMITTED))), {T})
  const AFTER_SETTLING: State :=
    State(Stage(Some(RowT(CONFIRMING)), Some(RowX(SUPERSEDED, Some(Id(3)))), Some(RowF(ACCEPTED))), {T, X})
  const BEFORE_LAST: Rows :=
    Stage(Some(RowT(PENDING)), Some(RowX(SUPERSEDED, Some(Id(3)))), Some(RowF(RECHECKING)))
  const MIXED: State := State(BEFORE_LAST[N := ROW_N], {T, X})

  lemma RunLost() returns (states: seq<State>)
    ensures IsEngineRun(states, LOST) && states[|LOST|] == AFTER_LOST
  {
    hide Id, Leads, IsEngineRun;
    IdsDiffer();
    var s0 := State(map[], {});
    states := [s0];
    EmptyRun(s0);
    InsertLeads(s0, T, RowT(SUBMITTING), None);
    var t0, t1 := State(Stage(Some(RowT(SUBMITTING)), None, None), {}), State(Stage(Some(RowT(SUBMITTED)), None, None), {});
    var t2, t3 := State(Stage(Some(RowT(RECHECKING)), None, None), {}), State(Stage(Some(RowT(UNKNOWN)), None, None), {});
    MoveT(None, None, {}, SUBMITTING, SUBMITTED);
    MoveT(None, None, {}, SUBMITTED, RECHECKING);
    MoveT(None, None, {}, RECHECKING, UNKNOWN);
    MoveT(None, None, {}, UNKNOWN, CONFLICTED);
    assert {} + {T} == {T} && [] + LOST == LOST;
    states := Chain5(states, [], LOST, t0, t1, t2, t3, AFTER_LOST);
  }

  lemma EmptyRun(s: State)
    requires s == State(map[], {})
    ensures IsEngineRun([s], [])
  {
  }

  lemma Chain5(states: seq<State>, steps: seq<Step>, more: seq<Step>, a: State, b: State, c: State, d: State, e: State)
    returns (r: seq<State>)
    requires IsEngineRun(states, steps) && |states| == |steps| + 1 && |more| == 5
    requires Leads(states[|steps|], more[0], a) && Leads(a, more[1], b) && Leads(b, more[2], c) && Leads(c, more[3], d)
    requires Leads(d, more[4], e)
    ensures IsEngineRun(r, steps + more) && |r| == |steps| + 6 && r[|steps| + 5] == e
  {
    hide Leads, IsEngineRun;
    r := Chain4(states, steps, more[..4], a, b, c, d);
    Extend(r, steps + more[..4], more[4], e);
    r := r + [e];
    assert steps + more[..4] + [more[4]] == steps + more;
  }

  lemma Chain4(states: seq<State>, steps: seq<Step>, more: seq<Step>, a: State, b: State, c: State, d: State)
    returns (r: seq<State>)
    requires IsEngineRun(states, steps) && |states| == |steps| + 1 && |more| == 4
    requires Leads(states[|steps|], more[0], a) && Leads(a, more[1], b) && Leads(b, more[2], c) && Leads(c, more[3], d)
    ensures IsEngineRun(r, steps + more) && |r| == |steps| + 5 && r[|steps| + 4] == d
  {
    hide Leads, IsEngineRun;
    Extend(states, steps, more[0], a);
    Extend(states + [a], steps + [more[0]], more[1], b);
    Extend(states + [a] + [b], steps + [more[0]] + [more[1]], more[2], c);
    Extend(states + [a] + [b] + [c], steps + [more[0]] + [more[1]] + [more[2]], more[3], d);
    r := states + [a] + [b] + [c] + [d];
    assert steps + [more[0]] + [more[1]] + [more[2]] + [more[3]] == steps + more;
  }

  lemma RunReplacing(states: seq<State>) returns (r: seq<State>)
    requires IsEngineRun(states, LOST) && states[|LOST|] == AFTER_LOST
    ensures IsEngineRun(r, LOST + REPLACING) && r[|LOST + REPLACING|] == AFTER_REPLACING
  {
    hide Id, Leads, IsEngineRun, EngineWrites;
    IdsDiffer();
    RunLength(states, LOST);
    var t := Some(RowT(CONFLICTED));
    var x0, x1 := Some(RowX(SUBMITTING, None)), Some(RowX(SUBMITTED, None));
    var s0, s1 := State(Stage(t, x0, None), {T}), State(Stage(t, x1, None), {T});
    var s2, s3 := State(Stage(t, x1, Some(RowF(SUBMITTING))), {T}), State(Stage(t, x1, Some(RowF(SUBMITTED))), {T});
    InsertLeads(AFTER_LOST, X, RowX(SUBMITTING, None), None);
    ReplacingWrites();
    MoveX(t, None, {T}, SUBMITTING, None, SUBMITTED, None);
    assert X in FamilyKeys(s1.rows, X);
    InsertLeads(s1, F, RowF(SUBMITTING), Some(X));
    MoveF(t, x1, {T}, SUBMITTING, SUBMITTED);
    MoveX(t, Some(RowF(SUBMITTED)), {T}, SUBMITTED, None, REPLACED, Some(Id(3)));
    r := Chain5(states, LOST, REPLACING, s0, s1, s2, s3, AFTER_REPLACING);
  }

  lemma ReplacingWrites()
    ensures var t, x1 := Some(RowT(CONFLICTED)), Some(RowX(SUBMITTED, None));
            && EngineWrites(Stage(t, Some(RowX(SUBMITTING, None)), None), X, SUBMITTED, None)
            && EngineWrites(Stage(t, x1, Some(RowF(SUBMITTING))), F, SUBMITTED, None)
            && EngineWrites(Stage(t, x1, Some(RowF(SUBMITTED))), X, REPLACED, Some(Id(3)))
  {
    hide Id;
    IdsDiffer();
    var rows := Stage(Some(RowT(CONFLICTED)), Some(RowX(SUBMITTED, None)), Some(RowF(SUBMITTED)));
    assert F in rows && SameProfile(F, X) && rows[F] == RowF(SUBMITTED);
  }

  lemma RunSettling(states: seq<State>) returns (r: seq<State>)
    requires IsEngineRun(states, LOST + REPLACING) && states[|LOST + REPLACING|] == AFTER_REPLACING
    ensures IsEngineRun(r, LOST + REPLACING + SETTLING) && r[|LOST + REPLACING + SETTLING|] == AFTER_SETTLING
  {
    hide Id, Leads, IsEngineRun, EngineWrites;
    RunLength(states, LOST + REPLACING);
    var t, x := Some(RowT(CONFIRMING)), Some(RowX(REPLACED, Some(Id(3))));
    var s0, s1 := State(Stage(t, x, Some(RowF(SUBMITTED))), {T}), State(Stage(t, x, Some(RowF(RECHECKING))), {T});
    var s2 := State(Stage(t, x, Some(RowF(ACCEPTED))), {T});
    SettlingWrites();
    MoveT(x, Some(RowF(SUBMITTED)), {T}, CONFLICTED, CONFIRMING);
    MoveF(t, x, {T}, SUBMITTED, RECHECKING);
    MoveF(t, x, {T}, RECHECKING, ACCEPTED);
    MoveX(t, Some(RowF(ACCEPTED)), {T}, REPLACED, Some(Id(3)), SUPERSEDED, Some(Id(3)));
    assert {T} + {X} == {T, X};
    r := Chain4(states, LOST + REPLACING, SETTLING, s0, s1, s2, AFTER_SETTLING);
  }

  lemma SettlingWrites()
    ensures var t, x := Some(RowT(CONFIRMING)), Some(RowX(REPLACED, Some(Id(3))));
            && EngineWrites(Stage(Some(RowT(CONFLICTED)), x, Some(RowF(SUBMITTED))), T, CONFIRMING, None)
            && EngineWrites(Stage(t, x, Some(RowF(SUBMITTED))), F, RECHECKING, None)
            && EngineWrites(Stage(t, x, Some(RowF(RECHECKING))), F, ACCEPTED, None)
            && EngineWrites(Stage(t, x, Some(RowF(ACCEPTED))), X, SUPERSEDED, Some(Id(3)))
  {
    hide Id, SettledIn, ReplacedIn;
    IdsDiffer();
    FamilySettled();
  }

  lemma FamilySettled()
    ensures var rows := Stage(Some(RowT(CONFIRMING)), Some(RowX(REPLACED, Some(Id(3)))), Some(RowF(ACCEPTED)));
            X in rows && SettledIn(rows, X)
  {
    hide Id;
    IdsDiffer();
    var rows := Stage(Some(RowT(CONFIRMING)), Some(RowX(REPLACED, Some(Id(3)))), Some(RowF(ACCEPTED)));
    assert F in rows && SameProfile(F, X) && rows[F] == RowF(ACCEPTED);
  }

  lemma RunReturning(states: seq<State>) returns (r: seq<State>)
    requires IsEngineRun(states, LOST + REPLACING + SETTLING) && states[|LOST + REPLACING + SETTLING|] == AFTER_SETTLING
    ensures IsEngineRun(r, MIXING) && r[|MIXING|] == MIXED
  {
    hide Id, Leads, IsEngineRun, EngineWrites;
    RunLength(states, LOST + REPLACING + SETTLING);
    var x, f := Some(RowX(SUPERSEDED, Some(Id(3)))), Some(RowF(RECHECKING));
    var s0, s1 := State(Stage(Some(RowT(CONFIRMING)), x, f), {T, X}), State(Stage(Some(RowT(RECHECKING)), x, f), {T, X});
    var s2 := State(BEFORE_LAST, {T, X});
    ReturningWrites();
    MoveF(Some(RowT(CONFIRMING)), x, {T, X}, ACCEPTED, RECHECKING);
    MoveT(x, f, {T, X}, CONFIRMING, RECHECKING);
    MoveT(x, f, {T, X}, RECHECKING, PENDING);
    LastInsert();
    r := Chain4(states, LOST + REPLACING + SETTLING, RETURNING, s0, s1, s2, MIXED);
  }

  lemma ReturningWrites()
    ensures var x, f := Some(RowX(SUPERSEDED, Some(Id(3)))), Some(RowF(RECHECKING));
            && EngineWrites(Stage(Some(RowT(CONFIRMING)), x, Some(RowF(ACCEPTED))), F, RECHECKING, None)
            && EngineWrites(Stage(Some(RowT(CONFIRMING)), x, f), T, RECHECKING, None)
            && EngineWrites(Stage(Some(RowT(RECHECKING)), x, f), T, PENDING, None)
  {
    hide Id;
    IdsDiffer();
  }

  /** `F` is exempt for its id alone, so `N` may join the family of `T`. */
  lemma LastInsert()
    ensures Leads(State(BEFORE_LAST, {T, X}), RETURNING[3], MIXED)
  {
    hide Id, Leads;
    IdsDiffer();
    assert T in FamilyKeys(BEFORE_LAST, T) && F in FamilyKeys(BEFORE_LAST, T);
    InsertLeads(State(BEFORE_LAST, {T, X}), N, ROW_N, Some(T));
  }

  lemma RunLength(states: seq<State>, steps: seq<Step>)
    requires IsEngineRun(states, steps)
    ensures |states| == |steps| + 1
  {
  }

  /** Two rows of one network that were never released, spend one outpoint, and belong to different families. */
  ghost predicate Mixed(s: State, a: Key, b: Key) {
    && a in s.rows && b in s.rows && a !in s.everReleased && b !in s.everReleased && a.network == b.network
    && ShareInput(s.rows[a], s.rows[b]) && !SameFamily(s.rows[a], s.rows[b])
  }

  /** Every write of this run is one that the engine makes, and it ends with two families mixed. Its last insert is the one that
      does not pass with only the target's own root exempt; the id that `T` and `F` share is recorded twice. */
  lemma FamiliesCanMix()
    ensures exists states :: IsEngineRun(states, MIXING) && Mixed(states[|MIXING|], F, N) && !Families(states[|MIXING|])
    ensures !FreeByRoot(BEFORE_LAST, RETURNING[3]) && !NewId(AFTER_LOST.rows[X := RowX(SUBMITTED, None)], REPLACING[2])
  {
    hide Id, IsEngineRun, Families, Mixed;
    var states := RunLost();
    states := RunReplacing(states);
    states := RunSettling(states);
    states := RunReturning(states);
    EndsMixed();
    IsMixed(MIXED, F, N);
    LastNotFree();
    SharedId();
  }

  lemma EndsMixed()
    ensures Mixed(MIXED, F, N)
  {
    hide Id;
    IdsDiffer();
    assert MIXED.rows[F] == RowF(RECHECKING) && MIXED.rows[N] == ROW_N;
    assert SHARED[0] in MIXED.rows[F].inputs && SHARED[0] in MIXED.rows[N].inputs;
  }

  lemma IsMixed(s: State, a: Key, b: Key)
    requires Mixed(s, a, b)
    ensures !Families(s)
  {
  }

  lemma LastNotFree()
    ensures !FreeByRoot(BEFORE_LAST, RETURNING[3])
  {
    hide Id;
    IdsDiffer();
    assert BEFORE_LAST[F] == RowF(RECHECKING) && BEFORE_LAST[T] == RowT(PENDING);
    assert F !in RootKeys(BEFORE_LAST, T);
    ReservedUnless(BEFORE_LAST, NETWORK, RootKeys(BEFORE_LAST, T), F, SHARED[0]);
    assert SHARED[0] in ROW_N.inputs;
  }

  lemma SharedId()
    ensures !NewId(AFTER_LOST.rows[X := RowX(SUBMITTED, None)], REPLACING[2])
  {
    hide Id;
    IdsDiffer();
    assert T in AFTER_LOST.rows[X := RowX(SUBMITTED, None)] && T.txid == F.txid;
  }
}
