/** The durable Raft store (crates/brokkr-raft/src/storage.rs): two tables changed
    only by whole transactions, and the logical log they stand for. */
module RaftLog {
  import opened Common
  import opened Quorum
  import opened RaftCluster

  datatype MetaKey = SnapIndex | SnapTerm | SnapData | SnapConfig | CurrentTerm | VotedFor

  datatype MetaValue = Number(n: nat) | Data(bytes: Bytes) | Members(config: ClusterConfig) | Name(id: NodeId)

  /** The committed content of the store. */
  datatype Db = Db(log: map<nat, Entry>, meta: map<MetaKey, MetaValue>)

  datatype SnapshotMeta = SnapshotMeta(index: nat, term: nat, config: ClusterConfig)

  datatype StoreError = Corrupt

  // ----- reading the tables -----

  /** The snapshot metadata; an index without a term is a corrupted store. */
  function ReadSnapshotMeta(db: Db): Result<Option<SnapshotMeta>, StoreError> {
    if SnapIndex !in db.meta then Ok(None)
    else if SnapTerm !in db.meta || !db.meta[SnapIndex].Number? || !db.meta[SnapTerm].Number? then Err(Corrupt)
    else
      var config := if SnapConfig in db.meta && db.meta[SnapConfig].Members? then db.meta[SnapConfig].config
          else ClusterConfig({}, None, {});
      Ok(Some(SnapshotMeta(db.meta[SnapIndex].n, db.meta[SnapTerm].n, config)))
  }

  function ReadHardState(db: Db): HardState {
    HardState(
      if CurrentTerm in db.meta && db.meta[CurrentTerm].Number? then db.meta[CurrentTerm].n else 0,
      if VotedFor in db.meta && db.meta[VotedFor].Name? then Some(db.meta[VotedFor].id) else None)
  }

  // ----- what a store stands for -----

  /** The table holds exactly the entries of `full` beyond `snap`. */
  ghost predicate Holds(table: map<nat, Entry>, full: Log, snap: nat) {
    && (forall i :: i in table <==> snap < i <= |full|)
    && (forall i :: i in table ==> table[i] == full[i - 1])
  }

  /** The snapshot keys are all absent, or all present and describe `full[..snap]`. */
  ghost predicate Described(meta: map<MetaKey, MetaValue>, full: Log, snap: nat) {
    if snap == 0 then SnapIndex !in meta && SnapTerm !in meta && SnapData !in meta && SnapConfig !in meta
    else
      && snap <= |full|
      && SnapIndex in meta && meta[SnapIndex] == Number(snap)
      && SnapTerm in meta && meta[SnapTerm] == Number(full[snap - 1].term)
      && SnapData in meta && meta[SnapData].Data?
      && SnapConfig in meta && meta[SnapConfig].Members?
  }

  ghost predicate StandsFor(db: Db, full: Log, snap: nat) {
    Holds(db.log, full, snap) && Described(db.meta, full, snap)
  }

  /** Some log is stood for in full: no gap in the entries, no half snapshot. */
  ghost predicate Whole(db: Db) { exists full, snap :: StandsFor(db, full, snap) }

  lemma WholeReads(db: Db)
    requires Whole(db)
    ensures ReadSnapshotMeta(db).Ok? && (SnapData in db.meta <==> SnapIndex in db.meta)
  {
  }

  /** The node view of a store, as the cluster model reads it. */
  ghost function View(full: Log, snap: nat): Node { Node(FreshHardState, full, snap, snap, Follower) }

  /** Entries with their indices, in order after `n`. */
  ghost predicate Consecutive(entries: seq<(nat, Entry)>, n: nat) {
    forall k :: 0 <= k < |entries| ==> entries[k].0 == n + 1 + k
  }

  function Payloads(entries: seq<(nat, Entry)>): Log { seq(|entries|, k requires 0 <= k < |entries| => entries[k].1) }

  /** The table once the entries are inserted in order, each over what is at its index. */
  function Inserted(table: map<nat, Entry>, entries: seq<(nat, Entry)>): map<nat, Entry> {
    if entries == [] then table
    else Inserted(table, entries[..|entries| - 1])[entries[|entries| - 1].0 := entries[|entries| - 1].1]
  }

  ghost predicate Names(entries: seq<(nat, Entry)>, i: nat) {
    exists k :: 0 <= k < |entries| && entries[k].0 == i
  }

  /** No entry at or below the snapshot, and none beyond the end without all those before it. */
  ghost predicate NoGap(entries: seq<(nat, Entry)>, snap: nat, end: nat) {
    forall k :: 0 <= k < |entries| ==> Attached(entries, snap, end, entries[k].0)
  }

  ghost predicate Attached(entries: seq<(nat, Entry)>, snap: nat, end: nat, at: nat) {
    snap < at && forall i :: end < i < at ==> Names(entries, i)
  }

  lemma {:induction false} InsertedHas(table: map<nat, Entry>, entries: seq<(nat, Entry)>, i: nat)
    ensures i in Inserted(table, entries) <==> i in table || Names(entries, i)
    ensures i in table && !Names(entries, i) ==> Inserted(table, entries)[i] == table[i]
  {
    if entries != [] {
      var rest, e := entries[..|entries| - 1], entries[|entries| - 1];
      InsertedHas(table, rest, i);
      assert Names(entries, i) <==> Names(rest, i) || e.0 == i by {
        if Names(rest, i) {
          var k :| 0 <= k < |rest| && rest[k].0 == i;
          assert entries[k].0 == i;
        }
        if Names(entries, i) {
          var k :| 0 <= k < |entries| && entries[k].0 == i;
          assert k < |rest| ==> rest[k].0 == i;
        }
        assert entries[|rest|] == e;
      }
    }
  }

  function Farthest(entries: seq<(nat, Entry)>, end: nat): (r: nat)
    ensures end <= r
  {
    if entries == [] then end
    else
      var r := Farthest(entries[..|entries| - 1], end);
      if entries[|entries| - 1].0 > r then entries[|entries| - 1].0 else r
  }

  lemma {:induction false} FarthestIs(entries: seq<(nat, Entry)>, end: nat)
    ensures forall k :: 0 <= k < |entries| ==> entries[k].0 <= Farthest(entries, end)
    ensures Farthest(entries, end) == end || Names(entries, Farthest(entries, end))
  {
    if entries != [] {
      var rest := entries[..|entries| - 1];
      FarthestIs(rest, end);
      if Names(rest, Farthest(rest, end)) {
        var k :| 0 <= k < |rest| && rest[k].0 == Farthest(rest, end);
        assert entries[k].0 == Farthest(rest, end);
      }
      assert entries[|rest|].0 <= Farthest(entries, end);
    }
  }

  /** The log after the insertion, if the table then stands for one. */
  function Overwritten(table: map<nat, Entry>, full: Log, entries: seq<(nat, Entry)>): Log
  {
    seq(Farthest(entries, |full|), i requires 0 <= i =>
      if i + 1 in Inserted(table, entries) then Inserted(table, entries)[i + 1] else if i < |full| then full[i] else
        Entry(0, Noop))
  }

  lemma {:induction false} InsertedKeys(table: map<nat, Entry>, entries: seq<(nat, Entry)>)
    ensures forall i: nat :: i in Inserted(table, entries) <==> i in table || Names(entries, i)
  {
    forall i: nat ensures i in Inserted(table, entries) <==> i in table || Names(entries, i) {
      InsertedHas(table, entries, i);
    }
  }

  /** Inserting without a gap leaves a table that stands for a log. */
  lemma {:induction false} InsertedHolds(table: map<nat, Entry>, full: Log, snap: nat, entries: seq<(nat, Entry)>)
    requires Holds(table, full, snap) && snap <= |full| && NoGap(entries, snap, |full|)
    ensures Holds(Inserted(table, entries), Overwritten(table, full, entries), snap)
    ensures full[..snap] <= Overwritten(table, full, entries)
  {
    InsertedKeys(table, entries);
    FarthestIs(entries, |full|);
    forall i: nat ensures i in Inserted(table, entries) <==> snap < i <= Farthest(entries, |full|) {
      GapFree(entries, snap, |full|, i);
    }
  }

  /** A gap leaves a table that stands for no log. */
  lemma {:induction false} GapShows(table: map<nat, Entry>, full: Log, snap: nat, entries: seq<(nat, Entry)>,
      other: Log)
    requires Holds(table, full, snap) && snap <= |full| && !NoGap(entries, snap, |full|)
    ensures !Holds(Inserted(table, entries), other, snap)
  {
    InsertedKeys(table, entries);
    var k :| 0 <= k < |entries| && !Attached(entries, snap, |full|, entries[k].0);
    assert Names(entries, entries[k].0);
    if snap < entries[k].0 {
      var i :| |full| < i < entries[k].0 && !Names(entries, i);
      assert i !in Inserted(table, entries);
    }
  }

  lemma GapFree(entries: seq<(nat, Entry)>, snap: nat, end: nat, i: nat)
    requires NoGap(entries, snap, end)
    requires Farthest(entries, end) == end || Names(entries, Farthest(entries, end))
    requires forall k :: 0 <= k < |entries| ==> entries[k].0 <= Farthest(entries, end)
    ensures Names(entries, i) ==> snap < i <= Farthest(entries, end)
    ensures end < i <= Farthest(entries, end) ==> Names(entries, i)
  {
    if end < i < Farthest(entries, end) {
      var k :| 0 <= k < |entries| && entries[k].0 == Farthest(entries, end);
      assert Attached(entries, snap, end, entries[k].0);
    }
  }

  /** Entries that follow the end one by one are appended. */
  lemma {:induction false} Appended(table: map<nat, Entry>, full: Log, snap: nat, entries: seq<(nat, Entry)>)
    requires Holds(table, full, snap) && snap <= |full| && Consecutive(entries, |full|)
    ensures NoGap(entries, snap, |full|) && Overwritten(table, full, entries) == full + Payloads(entries)
  {
    AppendedAt(table, full, entries);
    forall k | 0 <= k < |entries| ensures Attached(entries, snap, |full|, entries[k].0) {
      forall i | |full| < i < entries[k].0 ensures Names(entries, i) {
        assert entries[i - |full| - 1].0 == i;
      }
    }
    forall i: nat | i < |full| ensures Overwritten(table, full, entries)[i] == full[i] {
      InsertedHas(table, entries, i + 1);
    }
  }

  lemma {:induction false} AppendedAt(table: map<nat, Entry>, full: Log, entries: seq<(nat, Entry)>)
    requires Consecutive(entries, |full|)
    ensures Farthest(entries, |full|) == |full| + |entries|
    ensures forall k :: 0 <= k < |entries| ==>
              entries[k].0 in Inserted(table, entries) && Inserted(table, entries)[entries[k].0] == entries[k].1
  {
    if entries != [] {
      AppendedAt(table, full, entries[..|entries| - 1]);
    }
  }

  /** What inserting entries makes of a store. */
  lemma {:induction false} InsertedStands(db: Db, full: Log, snap: nat, entries: seq<(nat, Entry)>)
    requires StandsFor(db, full, snap) && snap <= |full|
    ensures var now, next := db.(log := Inserted(db.log, entries)), Overwritten(db.log, full, entries);
            && (NoGap(entries, snap, |full|) ==> StandsFor(now, next, snap) && snap <= |next|)
            && (!NoGap(entries, snap, |full|) ==> forall other :: !StandsFor(now, other, snap))
            && (Consecutive(entries, |full|) ==> NoGap(entries, snap, |full|) && next == full + Payloads(entries))
  {
    if Consecutive(entries, |full|) {
      Appended(db.log, full, snap, entries);
    }
    if NoGap(entries, snap, |full|) {
      InsertedHolds(db.log, full, snap, entries);
    } else {
      forall other ensures !StandsFor(db.(log := Inserted(db.log, entries)), other, snap) {
        GapShows(db.log, full, snap, entries, other);
      }
    }
  }

  lemma {:induction false} LastOfEmpty(table: map<nat, Entry>, full: Log, snap: nat)
    requires Holds(table, full, snap) && snap <= |full|
    ensures table == map[] <==> |full| == snap
  {
    if |full| > snap {
      assert |full| in table;
    }
  }

  method InsertAll(log: map<nat, Entry>, entries: seq<(nat, Entry)>) returns (table: map<nat, Entry>)
    ensures table == Inserted(log, entries)
  {
    table := log;
    for k := 0 to |entries|
      invariant table == Inserted(log, entries[..k])
    {
      assert entries[..k + 1][..k] == entries[..k];
      table := table[entries[k].0 := entries[k].1];
    }
    assert entries[..|entries|] == entries;
  }

  class RaftLog {
    var db: Db
    /** The logical log, and how much of it the snapshot replaces. */
    ghost var full: Log
    ghost var snap: nat
    /** Every content ever committed: what a crash at any moment leaves behind. */
    ghost var versions: seq<Db>
    ghost var hardStates: set<HardState>

    ghost predicate Valid()
      reads this
    {
      && StandsFor(db, full, snap) && snap <= |full|
      && (forall v :: v in versions ==> Whole(v) && ReadHardState(v) in hardStates)
      && db in versions
    }

    constructor ()
      ensures Valid() && full == [] && snap == 0 && ReadHardState(db) == FreshHardState
    {
      db := Db(map[], map[]);
      full, snap, versions, hardStates := [], 0, [Db(map[], map[])], {FreshHardState};
      assert StandsFor(Db(map[], map[]), [], 0);
    }

    /** The end of a transaction: the only place the store's content changes. */
    method Commit(staged: Db, ghost full': Log, ghost snap': nat)
      requires Valid() && StandsFor(staged, full', snap') && snap' <= |full'| && ReadHardState(staged) in hardStates
      modifies this`db, this`full, this`snap, this`versions
      ensures Valid() && db == staged && full == full' && snap == snap' && versions == old(versions) + [staged]
    {
      db := staged;
      full, snap, versions := full', snap', versions + [staged];
    }

    /** Inserts the entries, over what is at their indices, in one transaction.
        The store then stands for a log exactly when they leave no gap. */
    method AppendAll(entries: seq<(nat, Entry)>)
      requires Valid()
      modifies this`db, this`full, this`versions
      ensures db == old(db).(log := Inserted(old(db).log, entries)) && versions == old(versions) + [db]
      ensures Valid() <==> NoGap(entries, snap, |old(full)|)
      ensures !Valid() ==> forall other :: !StandsFor(db, other, snap)
      ensures Valid() ==> full == Overwritten(old(db).log, old(full), entries)
      ensures Consecutive(entries, |old(full)|) ==> Valid() && full == old(full) + Payloads(entries)
    {
      var table := InsertAll(db.log, entries);
      InsertedStands(db, full, snap, entries);
      ghost var next := Overwritten(db.log, full, entries);
      db := db.(log := table);
      full, versions := next, versions + [db];
    }

    method Get(i: nat) returns (r: Option<Entry>)
      requires Valid()
      ensures r == RaftCluster.Get(View(full, snap), i)
    {
      r := if i in db.log then Some(db.log[i]) else None;
    }

    /** The highest index and its term; the snapshot's when no entry is left. */
    method LastIndexAndTerm() returns (r: Result<(nat, nat), StoreError>)
      requires Valid()
      ensures r == Ok((|full|, LastTerm(full)))
    {
      LastOfEmpty(db.log, full, snap);
      if db.log != map[] {
        assert |full| in db.log;
        var last :| last in db.log && forall i :: i in db.log ==> i <= last;
        return Ok((last, db.log[last].term));
      }
      var meta := ReadSnapshotMeta(db);
      if meta.Err? {
        return Err(Corrupt);
      }
      r := if meta.value.Some? then Ok((meta.value.value.index, meta.value.value.term)) else Ok((0, 0));
    }

    /** Removes every entry from `from` on. */
    method TruncateFrom(from: nat)
      requires Valid() && from > snap
      modifies this`db, this`full, this`snap, this`versions
      ensures Valid() && snap == old(snap) && versions == old(versions) + [db]
      ensures full == if from <= |old(full)| then old(full)[..from - 1] else old(full)
      ensures ReadHardState(db) == ReadHardState(old(db))
    {
      var table := db.log;
      var toRemove := set i | i in db.log && i >= from;
      while toRemove != {}
        invariant toRemove <= db.log.Keys && (forall i :: i in toRemove ==> i >= from)
        invariant forall i :: i in table <==> i in db.log && (i < from || i in toRemove)
        invariant forall i :: i in table ==> table[i] == db.log[i]
        decreases |toRemove|
      {
        var i :| i in toRemove;
        table := table - {i};
        toRemove := toRemove - {i};
      }
      Commit(db.(log := table), if from <= |full| then full[..from - 1] else full, snap);
    }

    /** Installs a snapshot and drops the entries it covers, or all of them: one transaction. */
    method WriteSnapshot(meta: SnapshotMeta, data: Bytes, wipe: bool, ghost full': Log)
      requires Valid() && 0 < meta.index <= |full'| && full'[meta.index - 1].term == meta.term
      requires if wipe then meta.index == |full'| else full' == full && meta.index >= snap
      modifies this`db, this`full, this`snap, this`versions
      ensures Valid() && full == full' && snap == meta.index && versions == old(versions) + [db]
      ensures ReadHardState(db) == ReadHardState(old(db)) && ReadSnapshotMeta(db) == Ok(Some(meta)) &&
              db.meta[SnapData] == Data(data)
    {
      var table := db.meta;
      table := table[SnapIndex := Number(meta.index)];
      table := table[SnapTerm := Number(meta.term)];
      table := table[SnapData := Data(data)];
      table := table[SnapConfig := Members(meta.config)];
      var entries := if wipe then map[] else map i | i in db.log && i > meta.index :: db.log[i];
      Commit(Db(entries, table), full', meta.index);
    }

    /** Self-compaction at a present entry: the logical log is untouched. */
    method CompactTo(meta: SnapshotMeta, data: Bytes)
      requires Valid() && snap < meta.index <= |full| && full[meta.index - 1].term == meta.term
      modifies this`db, this`full, this`snap, this`versions
      ensures Valid() && full == old(full) && snap == meta.index && versions == old(versions) + [db]
      ensures ReadHardState(db) == ReadHardState(old(db)) && ReadSnapshotMeta(db) == Ok(Some(meta)) &&
              db.meta[SnapData] == Data(data)
    {
      WriteSnapshot(meta, data, false, full);
    }

    /** A snapshot from the leader replaces the log it conflicts with. */
    method InstallSnapshotReplacingLog(meta: SnapshotMeta, data: Bytes, ghost prefix: Log)
      requires Valid() && 0 < meta.index == |prefix| && prefix[meta.index - 1].term == meta.term
      modifies this`db, this`full, this`snap, this`versions
      ensures Valid() && full == prefix && snap == |prefix| && versions == old(versions) + [db]
      ensures ReadHardState(db) == ReadHardState(old(db)) && ReadSnapshotMeta(db) == Ok(Some(meta)) &&
              db.meta[SnapData] == Data(data)
    {
      WriteSnapshot(meta, data, true, prefix);
    }

    /** Persists the term and the vote together. */
    method SaveHardState(state: HardState)
      requires Valid()
      modifies this
      ensures Valid() && full == old(full) && snap == old(snap) && versions == old(versions) + [db]
      ensures ReadHardState(db) == state && hardStates == old(hardStates) + {state}
    {
      var table := db.meta[CurrentTerm := Number(state.currentTerm)];
      table := if state.votedFor.Some? then table[VotedFor := Name(state.votedFor.value)] else table - {VotedFor};
      hardStates := hardStates + {state};
      Commit(db.(meta := table), full, snap);
    }
  }
}
