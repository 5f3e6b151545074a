/**
  The quiescent lane pass as steps of the lease protocol: after a crash, the heartbeat thread has a
  sequence of protocol moves that settles the stores exactly as `LaneReconcile` says.
 */
module LaneSteps {
  import opened Common
  import opened LeaseProtocol
  import opened LeaseInvariant
  import opened LeaseLocks
  import opened LeasePaths
  import opened LaneReconcile

  /** The heartbeat thread is between two leases of a pass, and no lock is held. */
  ghost predicate Passing(s: State, snap: Snapshot) {
    Pc(s, Heartbeat) == Between(snap) && s.locks == map[]
  }

  ghost predicate Holding(s: State, snap: Snapshot, l: LeaseId, stage: Stage) {
    Pc(s, Heartbeat) == In(LanePass(snap), l, stage) && s.locks == map[l := Heartbeat]
  }

  predicate SameContents(s: State, s': State) {
    s'.records == s.records && s'.rows == s.rows && s'.trees == s.trees && s'.now == s.now
  }

  // ---------------------------------------------------------------------------
  // Single steps
  // ---------------------------------------------------------------------------

  lemma Enters(c: Config, s: State, snap: Snapshot, l: LeaseId, why: Why) returns (acts: seq<Action>, s': State)
    requires Passing(s, snap) && MayTake(c, snap, l, why)
    ensures After(c, s, acts) == Some(s') && SameContents(s, s') && Holding(s', snap, l, Hold(why))
  {
    OpenedAndLocked(s, Heartbeat, l, LanePass(snap), Hold(why));
    var s1 := Opened(s, Heartbeat, l, LanePass(snap), Hold(why));
    var a := PassOpensFile(c, s, Heartbeat, snap, l, why);
    var b := Flocks(c, s1, Heartbeat);
    AfterJoin(c, s, a, s1, b);
    acts, s' := a + b, FlockNext(s1, Heartbeat);
  }

  lemma Exits(c: Config, s: State, snap: Snapshot, l: LeaseId, stage: Stage) returns (acts: seq<Action>, s': State)
    requires Holding(s, snap, l, stage) && !stage.Treed?
    ensures After(c, s, acts) == Some(s') && SameContents(s, s') && Passing(s', snap)
  {
    acts := Leaves(c, s, Heartbeat);
    s' := LeaveNext(s, Heartbeat, false);
    assert s'.locks == map[];
  }

  lemma Retires(c: Config, s: State, snap: Snapshot, l: LeaseId, stage: Stage) returns (acts: seq<Action>, s': State)
    requires Holding(s, snap, l, stage) && MayRetire(LanePass(snap), stage)
    ensures After(c, s, acts) == Some(s') && Holding(s', snap, l, Shut(false))
    ensures s'.records == s.records && s'.rows == s.rows - {l} && s'.trees == s.trees && s'.now == s.now
  {
    acts, s' := Do(c, s, [], s, By(Heartbeat, Retire));
  }

  lemma Loads(c: Config, s: State, snap: Snapshot, l: LeaseId) returns (acts: seq<Action>, s': State)
    requires Holding(s, snap, l, Hold(Mismatch)) && IsArmed(s.records, l)
    ensures After(c, s, acts) == Some(s') && SameContents(s, s') && Holding(s', snap, l, Open(s.records[l]))
  {
    acts, s' := Do(c, s, [], s, By(Heartbeat, Load));
  }

  lemma Rechecks(c: Config, s: State, snap: Snapshot, l: LeaseId, rec: Record) returns (acts: seq<Action>, s': State)
    requires Holding(s, snap, l, Open(rec)) && !Matches(c, s.rows, l, rec)
    ensures After(c, s, acts) == Some(s') && SameContents(s, s') && Holding(s', snap, l, Doomed(rec, l in s.rows))
  {
    acts, s' := Do(c, s, [], s, By(Heartbeat, Recheck));
  }

  lemma Reclaims(c: Config, s: State, snap: Snapshot, l: LeaseId, rec: Record, live: bool)
    returns (acts: seq<Action>, s': State)
    requires Holding(s, snap, l, Doomed(rec, live))
    ensures After(c, s, acts) == Some(s') && Holding(s', snap, l, Removed(rec, live))
    ensures s'.records == s.records && s'.rows == s.rows && s'.trees == s.trees - {rec.name} && s'.now == s.now
  {
    acts, s' := Do(c, s, [], s, By(Heartbeat, Reclaim(true)));
  }

  lemma Tombstones(c: Config, s: State, snap: Snapshot, l: LeaseId, rec: Record, live: bool)
    returns (acts: seq<Action>, s': State)
    requires Holding(s, snap, l, Removed(rec, live))
    ensures After(c, s, acts) == Some(s') && Holding(s', snap, l, Shut(live))
    ensures s'.records == s.records[l := Closed(rec, s.now)]
    ensures s'.rows == s.rows && s'.trees == s.trees && s'.now == s.now
  {
    acts, s' := Do(c, s, [], s, By(Heartbeat, Tombstone));
  }

  // ---------------------------------------------------------------------------
  // One lease
  // ---------------------------------------------------------------------------

  /** A row of a tombstoned lease, or of none, is retired. */
  lemma DropsRow(c: Config, s: State, snap: Snapshot, l: LeaseId, why: Why) returns (acts: seq<Action>, s': State)
    requires Passing(s, snap) && MayTake(c, snap, l, why) && (why.TombstonedRow? || why.OrphanRow?)
    ensures After(c, s, acts) == Some(s') && Passing(s', snap)
    ensures s'.records == s.records && s'.rows == s.rows - {l} && s'.trees == s.trees && s'.now == s.now
  {
    var a, s1 := Enters(c, s, snap, l, why);
    var b, s2 := Retires(c, s1, snap, l, Hold(why));
    var d, s3 := Exits(c, s2, snap, l, Shut(false));
    AfterJoin(c, s, a, s1, b);
    AfterJoin(c, s, a + b, s2, d);
    acts, s' := a + b + d, s3;
  }

  lemma Dooms(c: Config, s: State, snap: Snapshot, l: LeaseId) returns (acts: seq<Action>, s': State)
    requires Passing(s, snap) && MayTake(c, snap, l, Mismatch)
    requires IsArmed(s.records, l) && !Matches(c, s.rows, l, s.records[l])
    ensures After(c, s, acts) == Some(s') && SameContents(s, s')
    ensures Holding(s', snap, l, Doomed(s.records[l], l in s.rows))
  {
    var a, s1 := Enters(c, s, snap, l, Mismatch);
    var b, s2 := Loads(c, s1, snap, l);
    var d, s3 := Rechecks(c, s2, snap, l, s.records[l]);
    AfterJoin(c, s, a, s1, b);
    AfterJoin(c, s, a + b, s2, d);
    acts, s' := a + b + d, s3;
  }

  lemma Finishes(c: Config, s: State, snap: Snapshot, l: LeaseId, live: bool) returns (acts: seq<Action>, s': State)
    requires Holding(s, snap, l, Shut(live)) && live == (l in s.rows)
    ensures After(c, s, acts) == Some(s') && Passing(s', snap)
    ensures s'.records == s.records && s'.rows == s.rows - {l} && s'.trees == s.trees && s'.now == s.now
  {
    if live {
      var a, s1 := Retires(c, s, snap, l, Shut(true));
      var b, s2 := Exits(c, s1, snap, l, Shut(false));
      AfterJoin(c, s, a, s1, b);
      acts, s' := a + b, s2;
    } else {
      acts, s' := Exits(c, s, snap, l, Shut(false));
      assert s.rows - {l} == s.rows;
    }
  }

  /** An armed record without a matching row is reclaimed, tombstoned and its row retired. */
  lemma Closes(c: Config, s: State, snap: Snapshot, l: LeaseId) returns (acts: seq<Action>, s': State)
    requires Passing(s, snap) && MayTake(c, snap, l, Mismatch)
    requires IsArmed(s.records, l) && !Matches(c, s.rows, l, s.records[l])
    ensures After(c, s, acts) == Some(s') && Passing(s', snap) && s'.now == s.now
    ensures s'.records == s.records[l := Closed(s.records[l], s.now)]
    ensures s'.rows == s.rows - {l} && s'.trees == s.trees - {s.records[l].name}
  {
    var rec, live := s.records[l], l in s.rows;
    var a, s1 := Dooms(c, s, snap, l);
    var b, s2 := Reclaims(c, s1, snap, l, rec, live);
    var d, s3 := Tombstones(c, s2, snap, l, rec, live);
    var e, s4 := Finishes(c, s3, snap, l, live);
    AfterJoin(c, s, a, s1, b);
    AfterJoin(c, s, a + b, s2, d);
    AfterJoin(c, s, a + b + d, s3, e);
    acts, s' := a + b + d + e, s4;
  }

  // ---------------------------------------------------------------------------
  // All leases
  // ---------------------------------------------------------------------------

  /** Where the record loop stands once the records in `done` are settled. */
  ghost predicate RecordsDone(c: Config, s0: State, s: State, done: set<LeaseId>) {
    && Passing(s, Snapshot(s0.rows, s0.records)) && s.now == s0.now
    && s.records == RecordsAfter(c, s0.now, s0.records, s0.rows, done)
    && s.rows == RowsAfter(c, s0.records, s0.rows, done)
    && s.trees == TreesAfter(c, s0.records, s0.rows, s0.trees, done)
  }

  /** What settling one more record does to the stores, in its three cases. */
  lemma SettledOneMore(
    c: Config, now: int, records: Records, rows: Rows, trees: set<Name>, done: set<LeaseId>, l: LeaseId)
    requires l in records && l !in done
    ensures
      var rec := records[l];
      var records', rows', trees' := RecordsAfter(c, now, records, rows, done + {l}),
        RowsAfter(c, records, rows, done + {l}), TreesAfter(c, records, rows, trees, done + {l});
      var records'', rows'', trees'' := RecordsAfter(c, now, records, rows, done),
        RowsAfter(c, records, rows, done), TreesAfter(c, records, rows, trees, done);
      if DoomedIn(c, records, rows, l)
      then records' == records''[l := Closed(rec, now)] && rows' == rows'' - {l} && trees' == trees'' - {rec.name}
      else records' == records'' && trees' == trees'' && rows' == if rec.phase.Tombstoned? then rows'' - {l} else rows''
  {
  }

  lemma SettlesOne(c: Config, s0: State, s: State, done: set<LeaseId>, l: LeaseId)
    returns (acts: seq<Action>, s': State)
    requires RecordsDone(c, s0, s, done) && l in s0.records && l !in done && done <= s0.records.Keys
    ensures After(c, s, acts) == Some(s') && RecordsDone(c, s0, s', done + {l})
  {
    var snap := Snapshot(s0.rows, s0.records);
    assert l in s.records && s.records[l] == s0.records[l];
    assert Lookup(s.rows, l) == Lookup(s0.rows, l);
    SettledOneMore(c, s0.now, s0.records, s0.rows, s0.trees, done, l);
    if s0.records[l].phase.Tombstoned? && l in s0.rows {
      acts, s' := DropsRow(c, s, snap, l, TombstonedRow);
    } else if s0.records[l].phase.Armed? && !Matches(c, s0.rows, l, s0.records[l]) {
      acts, s' := Closes(c, s, snap, l);
    } else {
      acts, s' := [], s;
      assert s0.records[l].phase.Tombstoned? ==> s.rows - {l} == s.rows;
    }
  }

  lemma {:induction false} SettlesRecords(c: Config, s0: State, s: State, done: set<LeaseId>)
    returns (acts: seq<Action>, s': State)
    requires RecordsDone(c, s0, s, done) && done <= s0.records.Keys
    ensures After(c, s, acts) == Some(s') && RecordsDone(c, s0, s', s0.records.Keys)
    decreases s0.records.Keys - done
  {
    if done == s0.records.Keys {
      acts, s' := [], s;
    } else {
      var l :| l in s0.records && l !in done;
      var a, s1 := SettlesOne(c, s0, s, done, l);
      var b, s2 := SettlesRecords(c, s0, s1, done + {l});
      AfterJoin(c, s, a, s1, b);
      acts, s' := a + b, s2;
    }
  }

  /** The row loop retires the rows of the snapshot that have no record in it. */
  lemma {:induction false} DropsOrphans(c: Config, s: State, snap: Snapshot, todo: set<LeaseId>)
    returns (acts: seq<Action>, s': State)
    requires Passing(s, snap) && todo <= snap.rows.Keys - snap.records.Keys
    ensures After(c, s, acts) == Some(s') && Passing(s', snap)
    ensures s'.records == s.records && s'.rows == s.rows - todo && s'.trees == s.trees
    decreases todo
  {
    if todo == {} {
      acts, s' := [], s;
    } else {
      var l :| l in todo;
      var a, s1 := DropsRow(c, s, snap, l, OrphanRow);
      var b, s2 := DropsOrphans(c, s1, snap, todo - {l});
      AfterJoin(c, s, a, s1, b);
      acts, s' := a + b, s2;
    }
  }

  lemma NothingSettled(c: Config, now: int, records: Records, rows: Rows, trees: set<Name>)
    ensures RecordsAfter(c, now, records, rows, {}) == records && RowsAfter(c, records, rows, {}) == rows
    ensures TreesAfter(c, records, rows, trees, {}) == trees
  {
  }

  lemma OrphansSettled(c: Config, records: Records, rows: Rows)
    ensures RowsAfter(c, records, rows, records.Keys) - (rows.Keys - records.Keys) == SettledRows(c, records, rows)
  {
  }

  /** Just after a crash the heartbeat thread has a pass of protocol moves that leaves exactly the settled
      stores; so rows and armed records agree. */
  lemma CrashThenPass(c: Config, s: State) returns (acts: seq<Action>, s': State)
    requires s.pcs == map[] && s.locks == map[]
    ensures After(c, s, acts) == Some(s') && s'.locks == map[]
    ensures s'.records == SettledRecords(c, s.now, s.records, s.rows)
    ensures s'.rows == SettledRows(c, s.records, s.rows)
    ensures s'.trees == SettledTrees(c, s.records, s.rows, s.trees)
    ensures Agree(c, s'.records, s'.rows)
  {
    var snap := Snapshot(s.rows, s.records);
    var a, s1 := PassReads(c, s, Heartbeat);
    NothingSettled(c, s.now, s.records, s.rows, s.trees);
    assert RecordsDone(c, s, s1, {});
    var b, s2 := SettlesRecords(c, s, s1, {});
    var d, s3 := DropsOrphans(c, s2, snap, s.rows.Keys - s.records.Keys);
    AfterJoin(c, s, a, s1, b);
    AfterJoin(c, s, a + b, s2, d);
    acts, s' := a + b + d, s3;
    OrphansSettled(c, s.records, s.rows);
    SettledAgrees(c, s.now, s.records, s.rows, s.trees);
  }
}
