/** The input-reservation journal and its fee-bump families (scripts/tracking/reservations.mjs,
    scripts/core/src/persistence.ts:72-101). */
module Reservations {
  import opened Results
  import opened Bytes
  import opened Scripts
  import opened Tx

  datatype Status = SUBMITTING | SUBMITTED | PENDING | UNKNOWN | RECHECKING | REPLACED | CONFIRMING | ACCEPTED
    | REJECTED | ARCHIVED | SUPERSEDED | CONFLICTED | DRIFTED

  /** A journal key: network, profile, transaction id. */
  datatype Key = Key(network: Bytes, profile: Bytes, txid: Bytes)

  datatype Record = Record(txid: Bytes, status: Status, inputs: seq<Outpoint>, replaceRoot: Option<Bytes>,
                           replacedBy: Option<Bytes>)

  type Rows = map<Key, Record>

  predicate Released(s: Status) {
    s in {REJECTED, ARCHIVED, SUPERSEDED, CONFLICTED, DRIFTED}
  }

  predicate OpenForReplacement(s: Status) {
    s in {SUBMITTED, PENDING, UNKNOWN, RECHECKING}
  }

  /** The family that a record belongs to. */
  function Root(r: Record): Bytes {
    if r.replaceRoot.Some? then r.replaceRoot.value else r.txid
  }

  // ---------------------------------------------------------------- the checks of an insert

  predicate InFamily(r: Record, root: Bytes, inputs: seq<Outpoint>) {
    (r.txid == root || r.replaceRoot == Some(root)) && r.inputs == inputs
  }

  /** The replaced record's family, as far as it spends exactly the same outpoints. */
  function FamilyKeys(rows: Rows, target: Key): set<Key> {
    if target !in rows then {}
    else
      var r := rows[target];
      set k | k in rows && InFamily(rows[k], Root(r), r.inputs)
  }

  predicate Reserves(rows: Rows, network: Bytes, except: set<Key>, k: Key) {
    k in rows && k.network == network && !Released(rows[k].status) && k !in except
  }

  function ReservedInputs(rows: Rows, network: Bytes, except: set<Key>): set<Outpoint> {
    set k, o | k in rows && Reserves(rows, network, except, k) && o in rows[k].inputs :: o
  }

  function Except(rows: Rows, bumps: Option<Key>): set<Key> {
    match bumps
    case None => {}
    case Some(k) => FamilyKeys(rows, k)
  }

  predicate NoRepeats(inputs: seq<Outpoint>) {
    forall i, j | 0 <= i < j < |inputs| :: inputs[i] != inputs[j]
  }

  function ReplacementChecked(rows: Rows, record: Record, bumps: Option<Key>): Result<()> {
    match bumps
    case None => Ok(())
    case Some(target) =>
      var _ :- Check(target in rows && OpenForReplacement(rows[target].status) && rows[target].replacedBy == None,
                     REPLACEMENT_TARGET_NOT_OPEN);
      var _ :- Check(rows[target].inputs == record.inputs, REPLACEMENT_INPUTS_DIFFER);
      Check(record.replaceRoot == Some(Root(rows[target])), REPLACEMENT_ROOT_MISMATCH)
  }

  /** Everything that is checked inside and before the atomic insert; `lease` is whether the submit lease is still held. */
  function InsertChecked(rows: Rows, network: Bytes, key: Key, record: Record, lease: bool, bumps: Option<Key>): Result<()> {
    var _ :- Check(|network| == 32 && key.network == network, RESERVATION_NETWORK);
    var _ :- Check(|key.profile| == 32 && |key.txid| == 32 && record.txid == key.txid && record.status == SUBMITTING
                   && record.inputs != [], INPUT_RESERVATION_RECORD_INVALID);
    var _ :- Check(forall i | 0 <= i < |record.inputs| :: ValidOutpoint(record.inputs[i]), INPUT_RESERVATION_OUTPOINT_INVALID);
    var _ :- Check(NoRepeats(record.inputs), DUPLICATE_INPUT);
    var _ :- Check(key !in rows, INTENT_ALREADY_EXISTS);
    var _ :- Check(lease, SUBMIT_LEASE_LOST);
    var _ :- ReplacementChecked(rows, record, bumps);
    var reserved := ReservedInputs(rows, network, Except(rows, bumps));
    Check(forall o | o in record.inputs :: o !in reserved, INPUT_ALREADY_RESERVED)
  }

  /** A row that still holds its inputs. */
  predicate Holding(r: Record) {
    r.status in {SUBMITTING, SUBMITTED, PENDING, UNKNOWN, RECHECKING, REPLACED, CONFIRMING, ACCEPTED}
  }

  /** The transaction that a chain of fee bumps started from. */
  predicate StartedFrom(r: Record, root: Bytes) {
    if r.replaceRoot == None then r.txid == root else r.replaceRoot == Some(root)
  }

  /** A row that `record` may replace: submitted or of unknown fate, not replaced yet, over the same inputs, and of the chain
      that the record names. */
  predicate Bumpable(r: Record, record: Record) {
    && r.status in {SUBMITTED, PENDING, UNKNOWN, RECHECKING} && r.replacedBy == None && r.inputs == record.inputs
    && record.replaceRoot.Some? && StartedFrom(r, record.replaceRoot.value)
  }

  /** A row of the chain of `record`: the row it started from or a bump of it, over the same inputs. */
  predicate OfChain(r: Record, record: Record) {
    r.inputs == record.inputs && record.replaceRoot.Some? && (r.txid == record.replaceRoot.value || r.replaceRoot == record.replaceRoot)
  }

  /** An intent is inserted exactly when it is well formed and new, its lease is held, the row it bumps can be bumped, and none
      of its inputs is held by a row of its network, the rows of its own chain aside when it is a bump. */
  lemma InsertExactly(rows: Rows, network: Bytes, key: Key, record: Record, lease: bool, bumps: Option<Key>)
    ensures InsertChecked(rows, network, key, record, lease, bumps).Ok?
       <==> && |network| == 32 && key.network == network && |key.profile| == 32 && |key.txid| == 32
            && record.txid == key.txid && record.status == SUBMITTING && record.inputs != []
            && (forall i | 0 <= i < |record.inputs| ::
                  |record.inputs[i].transactionId| == 32 && 0 <= record.inputs[i].index < 0x1_0000_0000)
            && (forall i, j | 0 <= i < j < |record.inputs| :: record.inputs[i] != record.inputs[j])
            && key !in rows && lease
            && (bumps.Some? ==> bumps.value in rows && Bumpable(rows[bumps.value], record))
            && (forall k, o | k in rows && k.network == network && Holding(rows[k]) && o in rows[k].inputs && o in record.inputs ::
                  bumps.Some? && OfChain(rows[k], record))
  {
    var replaced := ReplacementChecked(rows, record, bumps);
    assert replaced.Ok? <==> (bumps.Some? ==> bumps.value in rows && Bumpable(rows[bumps.value], record));
    if replaced.Ok? {
      HeldByOthers(rows, network, record, bumps);
    }
  }

  lemma ReleasedOrHolding(r: Record)
    ensures Released(r.status) <==> !Holding(r)
  {
    match r.status {
      case SUBMITTING | SUBMITTED | PENDING | UNKNOWN | RECHECKING | REPLACED | CONFIRMING | ACCEPTED =>
      case REJECTED | ARCHIVED | SUPERSEDED | CONFLICTED | DRIFTED =>
    }
  }

  /** The inputs that an intent finds reserved are those held outside its chain. */
  lemma HeldByOthers(rows: Rows, network: Bytes, record: Record, bumps: Option<Key>)
    requires ReplacementChecked(rows, record, bumps).Ok?
    ensures (forall o | o in record.inputs :: o !in ReservedInputs(rows, network, Except(rows, bumps)))
       <==> (forall k, o | k in rows && k.network == network && Holding(rows[k]) && o in rows[k].inputs && o in record.inputs ::
               bumps.Some? && OfChain(rows[k], record))
  {
    forall k | k in rows && k.network == network
      ensures Reserves(rows, network, Except(rows, bumps), k) <==> Holding(rows[k]) && !(bumps.Some? && OfChain(rows[k], record))
    {
      ReleasedOrHolding(rows[k]);
    }
    forall k, o | k in rows && k.network == network && Holding(rows[k]) && o in rows[k].inputs && o in record.inputs
                  && o !in ReservedInputs(rows, network, Except(rows, bumps))
      ensures bumps.Some? && OfChain(rows[k], record)
    {
      assert !Reserves(rows, network, Except(rows, bumps), k);
    }
  }

  // ---------------------------------------------------------------- steps

  /** The journal, and which rows have ever held a released status. */
  datatype State = State(rows: Rows, everReleased: set<Key>)

  datatype Step =
    | Insert(network: Bytes, key: Key, record: Record, lease: bool, bumps: Option<Key>)
    | Update(key: Key, status: Status, replacedBy: Option<Bytes>)

  ghost predicate Allowed(s: State, x: Step) {
    match x
    case Insert(network, key, record, lease, bumps) => InsertChecked(s.rows, network, key, record, lease, bumps).Ok?
    case Update(key, _, _) => key in s.rows
  }

  ghost function Applied(s: State, x: Step): State
    requires Allowed(s, x)
  {
    match x
    case Insert(_, key, record, _, _) => State(s.rows[key := record], s.everReleased)
    case Update(key, status, replacedBy) =>
      State(s.rows[key := s.rows[key].(status := status, replacedBy := replacedBy)],
            if Released(status) then s.everReleased + {key} else s.everReleased)
  }

  /** Only rows that are there have been released, and every released row is remembered. */
  ghost predicate Remembers(s: State) {
    && s.everReleased <= s.rows.Keys
    && forall k | k in s.rows :: Released(s.rows[k].status) ==> k in s.everReleased
  }

  // ---------------------------------------------------------------- the object store

  class Journal {
    var rows: Rows
    ghost var everReleased: set<Key>

    constructor ()
      ensures rows == map[] && everReleased == {}
    {
      rows, everReleased := map[], {};
    }

    ghost function Now(): State
      reads this
    {
      State(rows, everReleased)
    }

    /** The rows are collected and checked, and the record added, in one atomic step. */
    method PersistIntent(network: Bytes, key: Key, record: Record, lease: bool, bumps: Option<Key>) returns (r: Result<()>)
      modifies this
      ensures r == InsertChecked(old(rows), network, key, record, lease, bumps)
      ensures r.Ok? ==> Now() == Applied(old(Now()), Insert(network, key, record, lease, bumps))
      ensures r.Err? ==> Now() == old(Now())
    {
      var _ :- Check(|network| == 32 && key.network == network, RESERVATION_NETWORK);
      var _ :- Check(|key.profile| == 32 && |key.txid| == 32 && record.txid == key.txid && record.status == SUBMITTING
                     && record.inputs != [], INPUT_RESERVATION_RECORD_INVALID);
      var _ :- Check(forall i | 0 <= i < |record.inputs| :: ValidOutpoint(record.inputs[i]), INPUT_RESERVATION_OUTPOINT_INVALID);
      var _ :- Check(NoRepeats(record.inputs), DUPLICATE_INPUT);
      var _ :- Check(key !in rows, INTENT_ALREADY_EXISTS);
      var _ :- Check(lease, SUBMIT_LEASE_LOST);
      var _ :- ReplacementChecked(rows, record, bumps);
      var reserved := Reserved(network, Except(rows, bumps));
      var _ :- Check(forall o | o in record.inputs :: o !in reserved, INPUT_ALREADY_RESERVED);
      rows := rows[key := record];
      r := Ok(());
    }

    /** The loop that collects reserved inputs, row by row. */
    method Reserved(network: Bytes, except: set<Key>) returns (reserved: set<Outpoint>)
      ensures reserved == ReservedInputs(rows, network, except)
    {
      reserved := {};
      var left := rows.Keys;
      while left != {}
        invariant left <= rows.Keys
        invariant forall o :: o in reserved <==>
                    exists k | k in rows && k !in left :: Reserves(rows, network, except, k) && o in rows[k].inputs
        decreases |left|
      {
        var k :| k in left;
        left := left - {k};
        if Reserves(rows, network, except, k) {
          reserved := reserved + set o | o in rows[k].inputs;
        }
      }
    }

    /** A status update of one row. */
    method SetStatus(key: Key, status: Status, replacedBy: Option<Bytes>)
      requires key in rows
      modifies this
      ensures Now() == Applied(old(Now()), Update(key, status, replacedBy))
    {
      rows := rows[key := rows[key].(status := status, replacedBy := replacedBy)];
      everReleased := if Released(status) then everReleased + {key} else everReleased;
    }
  }

  // ---------------------------------------------------------------- families

  predicate ShareInput(a: Record, b: Record) {
    exists o :: o in a.inputs && o in b.inputs
  }

  predicate SameFamily(a: Record, b: Record) {
    Root(a) == Root(b) && a.inputs == b.inputs
  }

  /** Rows of one network that were never released and share an input are of one family, with the same inputs in order. */
  ghost predicate Families(s: State) {
    forall a, b | a in s.rows && b in s.rows && a.network == b.network && a !in s.everReleased && b !in s.everReleased
                  && ShareInput(s.rows[a], s.rows[b]) ::
      SameFamily(s.rows[a], s.rows[b])
  }

  /** Every never-released row of the network in the target's family has the target's root. */
  ghost predicate RootsAgree(s: State, x: Step) {
    x.Insert? && x.bumps.Some? && x.bumps.value in s.rows ==>
      forall k | k in FamilyKeys(s.rows, x.bumps.value) && k.network == x.network && k !in s.everReleased ::
        Root(s.rows[k]) == Root(s.rows[x.bumps.value])
  }

  lemma RemembersKept(s: State, x: Step)
    requires Remembers(s) && Allowed(s, x)
    ensures Remembers(Applied(s, x))
  {
  }

  lemma ReservedUnless(rows: Rows, network: Bytes, except: set<Key>, k: Key, o: Outpoint)
    ensures k in rows && Reserves(rows, network, except, k) && o in rows[k].inputs ==> o in ReservedInputs(rows, network, except)
  {
  }

  /** The new row against one that is there. */
  lemma NewcomerShares(s: State, x: Step, k: Key)
    requires Remembers(s) && x.Insert? && Allowed(s, x)
    requires k in s.rows && k.network == x.network && k !in s.everReleased && ShareInput(s.rows[k], x.record)
    ensures x.bumps.Some? && x.bumps.value in s.rows && k in FamilyKeys(s.rows, x.bumps.value)
    ensures s.rows[k].inputs == x.record.inputs && Root(x.record) == Root(s.rows[x.bumps.value])
  {
    var o :| o in s.rows[k].inputs && o in x.record.inputs;
    var except := Except(s.rows, x.bumps);
    ReservedUnless(s.rows, x.network, except, k, o);
  }

  lemma FamilyShares(s: State, x: Step, k: Key)
    requires x.Insert? && Allowed(s, x) && x.bumps.Some? && x.bumps.value in s.rows
    requires k in FamilyKeys(s.rows, x.bumps.value)
    ensures ShareInput(s.rows[k], x.record) && s.rows[k].inputs == x.record.inputs
  {
    assert x.record.inputs[0] in s.rows[k].inputs;
  }

  /** One step keeps the families apart exactly when the family it joins agrees on its root. */
  lemma StepKeepsFamilies(s: State, x: Step)
    requires Remembers(s) && Families(s) && Allowed(s, x)
    ensures Families(Applied(s, x)) <==> RootsAgree(s, x)
  {
    hide Families, RootsAgree, Applied, Remembers, Allowed;
    if x.Update? {
      UpdateKeepsFamilies(s, x);
      UpdatesAgree(s, x);
    } else {
      if RootsAgree(s, x) {
        InsertKeepsFamilies(s, x);
      }
      if Families(Applied(s, x)) {
        FamiliesAgree(s, x);
      }
    }
  }

  lemma UpdatesAgree(s: State, x: Step)
    requires x.Update?
    ensures RootsAgree(s, x)
  {
  }

  /** Had the new row joined a family with another root, the families would not be apart. */
  lemma FamiliesAgree(s: State, x: Step)
    requires Remembers(s) && x.Insert? && Allowed(s, x) && Families(Applied(s, x))
    ensures RootsAgree(s, x)
  {
    hide Families, Allowed;
    if x.bumps.Some? && x.bumps.value in s.rows {
      forall k | k in FamilyKeys(s.rows, x.bumps.value) && k.network == x.network && k !in s.everReleased
        ensures Root(s.rows[k]) == Root(s.rows[x.bumps.value])
      {
        FamilyShares(s, x, k);
        JoinedRoot(s, x, k);
      }
    }
  }

  lemma JoinedRoot(s: State, x: Step, k: Key)
    requires Remembers(s) && x.Insert? && Allowed(s, x) && Families(Applied(s, x)) && x.bumps.Some? && x.bumps.value in s.rows
    requires k in s.rows && k.network == x.network && k !in s.everReleased && ShareInput(s.rows[k], x.record)
    ensures Root(s.rows[k]) == Root(s.rows[x.bumps.value])
  {
    var t := Applied(s, x);
    assert t.rows[k] == s.rows[k] && t.rows[x.key] == x.record;
  }

  lemma UpdateKeepsFamilies(s: State, x: Step)
    requires Families(s) && x.Update? && Allowed(s, x)
    ensures Families(Applied(s, x))
  {
    var t := Applied(s, x);
    forall a, b | a in t.rows && b in t.rows && a.network == b.network && a !in t.everReleased && b !in t.everReleased
                  && ShareInput(t.rows[a], t.rows[b])
      ensures SameFamily(t.rows[a], t.rows[b])
    {
      assert ShareInput(s.rows[a], s.rows[b]);
    }
  }

  lemma InsertKeepsFamilies(s: State, x: Step)
    requires Remembers(s) && Families(s) && x.Insert? && Allowed(s, x) && RootsAgree(s, x)
    ensures Families(Applied(s, x))
  {
    var t := Applied(s, x);
    forall a, b | a in t.rows && b in t.rows && a.network == b.network && a !in t.everReleased && b !in t.everReleased
                  && ShareInput(t.rows[a], t.rows[b])
      ensures SameFamily(t.rows[a], t.rows[b])
    {
      if a == x.key && b != x.key {
        assert ShareInput(s.rows[b], x.record);
        NewcomerShares(s, x, b);
      } else if b == x.key && a != x.key {
        NewcomerShares(s, x, a);
      } else if a != x.key {
        assert ShareInput(s.rows[a], s.rows[b]);
      }
    }
  }

  // ---------------------------------------------------------------- conditions on the rows alone

  /** The rows of the target's own root that spend exactly its outpoints; `FamilyKeys` also takes a row for its id alone. */
  function RootKeys(rows: Rows, target: Key): set<Key> {
    if target !in rows then {} else set k | k in rows && SameFamily(rows[k], rows[target])
  }

  /** The insert would pass as well if only the rows of the target's own root were exempt. */
  predicate FreeByRoot(rows: Rows, x: Step) {
    x.Insert? && x.bumps.Some? ==>
      forall o | o in x.record.inputs :: o !in ReservedInputs(rows, x.network, RootKeys(rows, x.bumps.value))
  }

  /** Every row of the network in the target's family that is not released now has the target's root. */
  predicate LiveRootsAgree(rows: Rows, x: Step) {
    x.Insert? && x.bumps.Some? && x.bumps.value in rows ==>
      forall k | k in FamilyKeys(rows, x.bumps.value) && k.network == x.network && !Released(rows[k].status) ::
        Root(rows[k]) == Root(rows[x.bumps.value])
  }

  lemma LiveRootsFree(s: State, x: Step)
    requires x.Insert? && Allowed(s, x)
    ensures FreeByRoot(s.rows, x) <==> LiveRootsAgree(s.rows, x)
  {
    if x.bumps.Some? {
      var target := x.bumps.value;
      if FreeByRoot(s.rows, x) {
        forall k | k in FamilyKeys(s.rows, target) && k.network == x.network && !Released(s.rows[k].status)
          ensures Root(s.rows[k]) == Root(s.rows[target])
        {
          FamilyShares(s, x, k);
          ReservedUnless(s.rows, x.network, RootKeys(s.rows, target), k, x.record.inputs[0]);
        }
      }
      if LiveRootsAgree(s.rows, x) {
        forall o | o in x.record.inputs
          ensures o !in ReservedInputs(s.rows, x.network, RootKeys(s.rows, target))
        {
          NotReserved(s, x, o);
        }
      }
    }
  }

  lemma NotReserved(s: State, x: Step, o: Outpoint)
    requires x.Insert? && Allowed(s, x) && x.bumps.Some? && LiveRootsAgree(s.rows, x) && o in x.record.inputs
    ensures o !in ReservedInputs(s.rows, x.network, RootKeys(s.rows, x.bumps.value))
  {
    var target := x.bumps.value;
    forall k | k in s.rows && Reserves(s.rows, x.network, RootKeys(s.rows, target), k)
      ensures o !in s.rows[k].inputs
    {
      ReservedUnless(s.rows, x.network, FamilyKeys(s.rows, target), k, o);
    }
  }

  /** A past that the rows allow: what is released now is in it, and it kept the families apart. */
  ghost predicate PastOf(rows: Rows, past: set<Key>) {
    Remembers(State(rows, past)) && Families(State(rows, past))
  }

  /** The rows alone decide: an insert that the journal lets in keeps the families apart under every past of its rows if and only
      if its inputs are also free with only the target's own root exempt. */
  lemma FreeByRootIsExact(rows: Rows, x: Step)
    requires x.Insert? && InsertChecked(rows, x.network, x.key, x.record, x.lease, x.bumps).Ok?
    ensures (forall past | PastOf(rows, past) :: Families(Applied(State(rows, past), x))) <==> FreeByRoot(rows, x)
  {
    hide Families, Applied, InsertChecked, Remembers, FreeByRoot, LiveRootsAgree, RootsAgree;
    LiveRootsFree(State(rows, {}), x);
    if LiveRootsAgree(rows, x) {
      forall past | PastOf(rows, past)
        ensures Families(Applied(State(rows, past), x))
      {
        LiveRootsSuffice(State(rows, past), x);
        StepKeepsFamilies(State(rows, past), x);
      }
    } else {
      var past := MixingPast(rows, x);
      StepKeepsFamilies(State(rows, past), x);
    }
  }

  lemma LiveRootsSuffice(s: State, x: Step)
    requires Remembers(s) && LiveRootsAgree(s.rows, x)
    ensures RootsAgree(s, x)
  {
  }

  /** The past in which every other row was released at some time. */
  lemma MixingPast(rows: Rows, x: Step) returns (past: set<Key>)
    requires x.Insert? && !LiveRootsAgree(rows, x)
    ensures PastOf(rows, past) && !RootsAgree(State(rows, past), x)
  {
    var target := x.bumps.value;
    var k :| k in FamilyKeys(rows, target) && k.network == x.network && !Released(rows[k].status)
             && Root(rows[k]) != Root(rows[target]);
    past := rows.Keys - {k};
  }

  /** No row of the network carries the new id, only a replacement names a root, and it replaces a row of the network. */
  predicate NewId(rows: Rows, x: Step) {
    x.Insert? ==>
      && (forall k | k in rows && k.network == x.network :: k.txid != x.key.txid)
      && (x.bumps == None ==> x.record.replaceRoot == None)
      && (x.bumps.Some? ==> x.bumps.value.network == x.network)
  }

  /** One row of a network for each id, under that id, and every root that is named is the id of an original. */
  predicate Orderly(rows: Rows) {
    && (forall k | k in rows :: rows[k].txid == k.txid)
    && (forall a, b | a in rows && b in rows && a.network == b.network && a.txid == b.txid :: a == b)
    && (forall k | k in rows && rows[k].replaceRoot.Some? :: RootRecorded(rows, k))
  }

  predicate RootRecorded(rows: Rows, k: Key)
    requires k in rows && rows[k].replaceRoot.Some?
  {
    exists b | b in rows :: b.network == k.network && b.txid == rows[k].replaceRoot.value && rows[b].replaceRoot == None
  }

  /** The row that a row's family goes back to. */
  lemma Original(rows: Rows, k: Key) returns (b: Key)
    requires Orderly(rows) && k in rows
    ensures b in rows && b.network == k.network && b.txid == Root(rows[k]) && rows[b].replaceRoot == None
  {
    b := k;
    if rows[k].replaceRoot.Some? {
      assert RootRecorded(rows, k);
      b :| b in rows && b.network == k.network && b.txid == rows[k].replaceRoot.value && rows[b].replaceRoot == None;
    }
  }

  lemma NewIdKeepsOrder(s: State, x: Step)
    requires Orderly(s.rows) && Allowed(s, x) && NewId(s.rows, x)
    ensures Orderly(Applied(s, x).rows)
  {
    hide Orderly, NewId;
    match x
    case Insert(network, key, record, lease, bumps) => AddedKeepsOrder(s.rows, network, key, record, lease, bumps);
    case Update(key, status, replacedBy) => WrittenKeepsOrder(s.rows, key, status, replacedBy);
  }

  lemma AddedKeepsOrder(rows: Rows, network: Bytes, key: Key, record: Record, lease: bool, bumps: Option<Key>)
    requires Orderly(rows) && InsertChecked(rows, network, key, record, lease, bumps).Ok?
    requires NewId(rows, Insert(network, key, record, lease, bumps))
    ensures Orderly(rows[key := record])
  {
    hide ReservedInputs, ValidOutpoint, NoRepeats, Except;
    var t := rows[key := record];
    forall k | k in t && t[k].replaceRoot.Some?
      ensures RootRecorded(t, k)
    {
      var b := Original(rows, if k == key then bumps.value else k);
      assert b in t && t[b].replaceRoot == None;
    }
  }

  lemma WrittenKeepsOrder(rows: Rows, key: Key, status: Status, replacedBy: Option<Bytes>)
    requires Orderly(rows) && key in rows
    ensures Orderly(rows[key := rows[key].(status := status, replacedBy := replacedBy)])
  {
    var t := rows[key := rows[key].(status := status, replacedBy := replacedBy)];
    forall k | k in t && t[k].replaceRoot.Some?
      ensures RootRecorded(t, k)
    {
      var b := Original(rows, k);
      assert b in t && t[b].replaceRoot == None;
    }
  }

  /** With one row for each id, a family has one root. */
  lemma NewIdIsFree(s: State, x: Step)
    requires Orderly(s.rows) && Allowed(s, x) && NewId(s.rows, x)
    ensures FreeByRoot(s.rows, x)
  {
    if x.Insert? {
      if x.bumps.Some? {
        var target := x.bumps.value;
        var b := Original(s.rows, target);
        forall k | k in FamilyKeys(s.rows, target) && k.network == x.network
          ensures Root(s.rows[k]) == Root(s.rows[target])
        {
          if s.rows[k].replaceRoot != Some(Root(s.rows[target])) {
            assert k == b;
          }
        }
      }
      LiveRootsFree(s, x);
    }
  }

  // ---------------------------------------------------------------- runs

  ghost predicate IsRun(states: seq<State>, steps: seq<Step>) {
    && |states| == |steps| + 1
    && states[0] == State(map[], {})
    && forall i {:trigger steps[i]} | 0 <= i < |steps| :: Allowed(states[i], steps[i]) && states[i + 1] == Applied(states[i], steps[i])
  }

  /** No step of the run joins a family that disagrees on its root. */
  ghost predicate AlwaysAgree(states: seq<State>, steps: seq<Step>, n: nat)
    requires n <= |steps| && |states| == |steps| + 1
  {
    forall i {:trigger steps[i]} | 0 <= i < n :: RootsAgree(states[i], steps[i])
  }

  /** Over any run of inserts and status updates, all states keep the families apart exactly when every insert joins a family
      that agrees on its root. */
  lemma {:induction false} ReservationSafety(states: seq<State>, steps: seq<Step>, n: nat)
    requires IsRun(states, steps) && n <= |steps|
    ensures Remembers(states[n])
    ensures (forall i | 0 <= i <= n :: Families(states[i])) <==> AlwaysAgree(states, steps, n)
  {
    hide Families, Applied, Allowed, RootsAgree, Remembers;
    if n == 0 {
      EmptyFamilies();
    } else {
      ReservationSafety(states, steps, n - 1);
      var s, x := states[n - 1], steps[n - 1];
      RemembersKept(s, x);
      if Families(s) {
        StepKeepsFamilies(s, x);
      }
      if AlwaysAgree(states, steps, n) {
        assert AlwaysAgree(states, steps, n - 1);
      }
    }
  }

  /** Every run whose inserts pass with only the target's own root exempt keeps the families apart, whatever is revived. */
  lemma {:induction false} FreeByRootIsSafe(states: seq<State>, steps: seq<Step>, n: nat)
    requires IsRun(states, steps) && n <= |steps|
    requires forall i {:trigger steps[i]} | 0 <= i < n :: FreeByRoot(states[i].rows, steps[i])
    ensures Remembers(states[n]) && Families(states[n])
  {
    hide Families, Applied, Allowed, RootsAgree, Remembers, FreeByRoot, LiveRootsAgree;
    if n == 0 {
      EmptyFamilies();
    } else {
      FreeByRootIsSafe(states, steps, n - 1);
      var s, x := states[n - 1], steps[n - 1];
      assert FreeByRoot(s.rows, x);
      RemembersKept(s, x);
      FreeRootsAgree(s, x);
      StepKeepsFamilies(s, x);
    }
  }

  lemma FreeRootsAgree(s: State, x: Step)
    requires Remembers(s) && Allowed(s, x) && FreeByRoot(s.rows, x)
    ensures RootsAgree(s, x)
  {
    hide Remembers, Allowed, FreeByRoot, LiveRootsAgree, RootsAgree;
    if x.Update? {
      UpdatesAgree(s, x);
    } else {
      LiveRootsFree(s, x);
      LiveRootsSuffice(s, x);
    }
  }

  /** Every run that never records one id twice in a network keeps the families apart. */
  lemma {:induction false} UniqueIdsAreSafe(states: seq<State>, steps: seq<Step>, n: nat)
    requires IsRun(states, steps) && n <= |steps|
    requires forall i {:trigger steps[i]} | 0 <= i < n :: NewId(states[i].rows, steps[i])
    ensures Orderly(states[n].rows) && Families(states[n])
    ensures forall i {:trigger steps[i]} | 0 <= i < n :: FreeByRoot(states[i].rows, steps[i])
  {
    hide Families, Applied, Allowed, FreeByRoot, NewId;
    if n == 0 {
      EmptyFamilies();
    } else {
      hide Orderly;
      UniqueIdsAreSafe(states, steps, n - 1);
      assert NewId(states[n - 1].rows, steps[n - 1]);
      NewIdKeepsOrder(states[n - 1], steps[n - 1]);
      NewIdIsFree(states[n - 1], steps[n - 1]);
      FreeByRootIsSafe(states, steps, n);
    }
  }

  lemma EmptyFamilies()
    ensures Families(State(map[], {})) && Remembers(State(map[], {}))
  {
  }
}
