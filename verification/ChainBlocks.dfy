/** The bounded chain-block invalidation table (scripts/chain/nodes.mjs:95-122,213, scripts/chain/dual-node.mjs:27-34). */
module ChainBlocks {

  type Hash = string

  /** A table entry; callers keep the object and the revision it had. */
  class Entry {
    const hash: Hash
    var revision: nat

    constructor (h: Hash)
      ensures hash == h && revision == 0
    {
      hash, revision := h, 0;
    }
  }

  /** What can happen to chain-block knowledge. */
  datatype Event = Removed(hash: Hash) | UnknownRemoval | Bump | Evicted(hash: Hash) | Closed

  predicate Invalidates(e: Event, hash: Hash) {
    e == Removed(hash) || e == UnknownRemoval || e == Bump || e == Evicted(hash) || e == Closed
  }

  /** Nothing in `log` from `from` on invalidates `hash`. */
  ghost predicate Clean(log: seq<Event>, from: nat, hash: Hash) {
    forall i | from <= i < |log| :: !Invalidates(log[i], hash)
  }

  lemma CleanAppended(log: seq<Event>, e: Event)
    ensures forall from: nat, hash | from <= |log| ::
              Clean(log + [e], from, hash) <==> Clean(log, from, hash) && !Invalidates(e, hash)
  {
    forall from: nat, hash | from <= |log|
      ensures Clean(log + [e], from, hash) <==> Clean(log, from, hash) && !Invalidates(e, hash)
    {
      assert (log + [e])[|log|] == e;
      assert forall i | 0 <= i < |log| :: (log + [e])[i] == log[i];
    }
  }

  /** An entry, the revision read from it, and when. */
  datatype Token = Token(entry: Entry, revision: nat, at: nat)

  const LIMIT := 64

  class Table {
    var entries: map<Hash, Entry>
    var order: seq<Hash>
    var chainRevision: nat
    var blocksRevision: nat
    ghost var log: seq<Event>
    ghost var tokens: set<Token>
    ghost var known: set<Entry>

    /** Insertion order lists exactly the keys, every entry sits under its own hash, and every entry ever made is known. */
    ghost predicate Shape()
      reads this, known
    {
      && |order| <= 64 && blocksRevision <= chainRevision
      && (forall i, j | 0 <= i < j < |order| :: order[i] != order[j])
      && (forall h :: h in entries <==> h in order)
      && (forall h | h in entries :: entries[h].hash == h && entries[h] in known)
      && (forall t | t in tokens :: t.entry in known && t.at <= |log| && t.revision <= t.entry.revision)
    }

    /** The tokens that are live are exactly those whose hash nothing has happened to. */
    ghost predicate Valid()
      reads this, known
    {
      && Shape()
      && (forall t | t in tokens :: Live(t) <==> Clean(log, t.at, t.entry.hash))
    }

    /** `chainBlockCurrent`, as a function of the table. */
    ghost predicate Live(t: Token)
      reads this, t.entry
    {
      && blocksRevision == chainRevision && t.entry.hash in entries && entries[t.entry.hash] == t.entry
      && t.entry.revision == t.revision
    }

    constructor ()
      ensures Valid() && fresh(known) && log == [] && tokens == {} && entries == map[]
    {
      entries, order, chainRevision, blocksRevision := map[], [], 0, 0;
      log, tokens, known := [], {}, {};
    }

    /** Raises the revision of every entry in the table; no token matches its entry any more. */
    method RaiseAll()
      requires Shape()
      modifies known
      ensures Shape()
      ensures forall t | t in tokens :: t.entry.hash in entries && entries[t.entry.hash] == t.entry ==> t.revision < t.entry.revision
    {
      for i := 0 to |order|
        invariant forall e | e in known :: e.revision >= old(e.revision)
        invariant forall k | 0 <= k < i :: entries[order[k]].revision > old(entries[order[k]].revision)
        invariant forall k | i <= k < |order| :: entries[order[k]].revision == old(entries[order[k]].revision)
      {
        assert order[i] in entries;
        var e := entries[order[i]];
        e.revision := e.revision + 1;
      }
      forall h | h in entries
        ensures entries[h].revision > old(entries[h].revision)
      {
        assert h in order;
      }
    }

    /** Catches up with a bump that was not recorded. */
    method Sync()
      requires Valid()
      modifies this`blocksRevision, known
      ensures Valid() && blocksRevision == chainRevision
    {
      if blocksRevision != chainRevision {
        RaiseAll();
        blocksRevision := chainRevision;
      }
    }

    /** Adds an entry for a hash that has none. */
    method Add(hash: Hash) returns (entry: Entry)
      requires Valid() && hash !in entries && |order| < LIMIT
      modifies this`entries, this`order, this`known
      ensures Valid() && fresh(entry) && known == old(known) + {entry}
      ensures entries == old(entries)[hash := entry] && entry.hash == hash
    {
      entry := new Entry(hash);
      entries, order, known := entries[hash := entry], order + [hash], known + {entry};
    }

    /** Hands out the entry of a hash, making room for it if need be; the caller keeps the revision it has now. */
    method ObserveChainBlock(hash: Hash) returns (entry: Entry, revision: nat)
      requires Valid()
      modifies this, known
      ensures Valid() && fresh(known - old(known))
      ensures entry.hash == hash && revision == entry.revision && tokens == old(tokens) + {Token(entry, revision, |log|)}
      ensures entry in known && Live(Token(entry, revision, |log|))
      ensures chainRevision == old(chainRevision)
      ensures log == old(log) || (|old(order)| == 64 && log == old(log) + [Evicted(old(order)[0])])
    {
      Sync();
      if hash in entries {
        entry := entries[hash];
      } else {
        if |order| >= LIMIT {
          Evict();
        }
        entry := Add(hash);
      }
      revision := entry.revision;
      Issue(entry);
    }

    /** Remembers that a caller holds an entry at its present revision. */
    ghost method Issue(entry: Entry)
      requires Valid() && entry in known && Live(Token(entry, entry.revision, |log|))
      modifies this`tokens
      ensures Valid() && tokens == old(tokens) + {Token(entry, entry.revision, |log|)}
    {
      tokens := tokens + {Token(entry, entry.revision, |log|)};
    }

    /** Drops the oldest entry. */
    method Evict()
      requires Valid() && |order| == LIMIT
      modifies this
      ensures Valid() && known == old(known) && tokens == old(tokens)
      ensures order == old(order)[1..] && entries == old(entries) - {old(order)[0]}
      ensures chainRevision == old(chainRevision) && blocksRevision == old(blocksRevision)
      ensures log == old(log) + [Evicted(old(order)[0])]
    {
      var oldest := order[0];
      CleanAppended(log, Evicted(oldest));
      entries, order := entries - {oldest}, order[1..];
      log := log + [Evicted(oldest)];
    }

    /** Known removals raise the removed entries; unknown ones, or a bump not yet seen, raise all of them. */
    method NoteChainRemoval(hashes: seq<Hash>, isKnown: bool)
      requires Valid()
      modifies this, known
      ensures Valid() && known == old(known) && tokens == old(tokens)
      ensures isKnown && hashes == [] ==> log == old(log)
      ensures isKnown ==> log == old(log) + Removals(hashes)
      ensures !isKnown ==> log == old(log) + [UnknownRemoval]
    {
      if isKnown && hashes == [] {
        return;
      }
      Advance(isKnown);
      if isKnown {
        RaiseEach(hashes);
      }
    }

    /** Moves both revisions on, raising every entry when the removal or an earlier bump is unknown. */
    method Advance(isKnown: bool)
      requires Valid()
      modifies this`chainRevision, this`blocksRevision, this`log, known
      ensures Valid() && blocksRevision == chainRevision == old(chainRevision) + 1
      ensures log == if isKnown then old(log) else old(log) + [UnknownRemoval]
    {
      CleanAppended(log, UnknownRemoval);
      if !isKnown || blocksRevision != chainRevision {
        RaiseAll();
      }
      chainRevision := chainRevision + 1;
      blocksRevision := chainRevision;
      if !isKnown {
        log := log + [UnknownRemoval];
      }
    }

    /** Raises the entries of known removed hashes, one by one. */
    method RaiseEach(hashes: seq<Hash>)
      requires Valid()
      modifies this`log, known
      ensures Valid() && log == old(log) + Removals(hashes)
    {
      for i := 0 to |hashes|
        invariant Valid() && log == old(log) + Removals(hashes[..i])
      {
        assert Removals(hashes[..i + 1]) == Removals(hashes[..i]) + [Removed(hashes[i])];
        RaiseOne(hashes[i]);
      }
      assert hashes[..|hashes|] == hashes;
    }

    method RaiseOne(hash: Hash)
      requires Valid()
      modifies this`log, known
      ensures Valid() && log == old(log) + [Removed(hash)]
    {
      CleanAppended(log, Removed(hash));
      if hash in entries {
        var e := entries[hash];
        e.revision := e.revision + 1;
      }
      log := log + [Removed(hash)];
    }

    /** A bump of the chain revision that the table is not told about. */
    method BumpUnrecorded()
      requires Valid()
      modifies this`chainRevision, this`log
      ensures Valid() && log == old(log) + [Bump] && blocksRevision < chainRevision
    {
      CleanAppended(log, Bump);
      chainRevision := chainRevision + 1;
      log := log + [Bump];
    }

    /** Closing the connection empties the table. */
    method Close()
      requires Valid()
      modifies this
      ensures Valid() && known == old(known) && tokens == old(tokens) && log == old(log) + [Closed]
      ensures entries == map[] && blocksRevision == chainRevision == old(chainRevision)
    {
      entries, order := map[], [];
      blocksRevision := chainRevision;
      CleanAppended(log, Closed);
      log := log + [Closed];
    }

    /** A token is still current exactly when nothing has happened to its hash since it was taken: no removal of it, no unknown
        removal, no unrecorded bump, no eviction, no close. */
    method ChainBlockCurrent(entry: Entry, revision: nat, ghost at: nat) returns (current: bool)
      requires Valid() && Token(entry, revision, at) in tokens
      ensures current <==> Clean(log, at, entry.hash)
    {
      current := blocksRevision == chainRevision && entry.hash in entries && entries[entry.hash] == entry
                 && entry.revision == revision;
    }
  }

  ghost function Removals(hashes: seq<Hash>): (es: seq<Event>)
    ensures |es| == |hashes|
  {
    seq(|hashes|, i requires 0 <= i < |hashes| => Removed(hashes[i]))
  }
}
