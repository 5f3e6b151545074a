/**
  One quiescent, failure-free lane reconcile pass: what it leaves in the stores, and that a second
  pass finds nothing to do.
 */
module LaneReconcile {
  import opened Common
  import opened LeaseProtocol

  type Records = map<LeaseId, Record>
  type Rows = map<LeaseId, Lane>

  datatype Reason = TombstoneRowRetired | RowMissing | LaneMismatch | OrphanRowRetired

  /** Each row has one armed record with its lane and owner; each armed record has such a row. */
  ghost predicate Agree(c: Config, records: Records, rows: Rows) {
    && (forall l | l in rows :: IsArmed(records, l) && Matches(c, rows, l, records[l]))
    && (forall l | IsArmed(records, l) :: Matches(c, rows, l, records[l]))
  }

  predicate DoomedIn(c: Config, records: Records, rows: Rows, l: LeaseId) {
    IsArmed(records, l) && !Matches(c, rows, l, records[l])
  }

  /** What the first half of the pass has made of the stores once the records in `done` are handled. */
  ghost function RecordsAfter(c: Config, now: int, records: Records, rows: Rows, done: set<LeaseId>): Records {
    map l | l in records :: if l in done && DoomedIn(c, records, rows, l) then Closed(records[l], now) else records[l]
  }

  ghost function RowsAfter(c: Config, records: Records, rows: Rows, done: set<LeaseId>): Rows {
    map l | l in rows && (l in done ==> IsArmed(records, l) && Matches(c, rows, l, records[l])) :: rows[l]
  }

  ghost function TreesAfter(
    c: Config, records: Records, rows: Rows, trees: set<Name>, done: set<LeaseId>): set<Name>
  {
    trees - set l | l in done && DoomedIn(c, records, rows, l) :: records[l].name
  }

  ghost function SettledRecords(c: Config, now: int, records: Records, rows: Rows): Records {
    RecordsAfter(c, now, records, rows, records.Keys)
  }

  ghost function SettledRows(c: Config, records: Records, rows: Rows): Rows {
    RowsAfter(c, records, rows, rows.Keys)
  }

  ghost function SettledTrees(c: Config, records: Records, rows: Rows, trees: set<Name>): set<Name> {
    TreesAfter(c, records, rows, trees, records.Keys)
  }

  /** What a pass over these stores has to do, and why: a closed lease still has its row, an armed one has none
      or one of another lane or owner, a row has no record. */
  ghost predicate Due(c: Config, records: Records, rows: Rows, l: LeaseId, why: Reason) {
    match why
    case TombstoneRowRetired => l in records && records[l].phase.Tombstoned? && l in rows
    case RowMissing => l in records && records[l].phase.Armed? && l !in rows
    case LaneMismatch =>
      && l in records && records[l].phase.Armed? && l in rows && (rows[l] != records[l].lane || !c.ownConsumer)
    case OrphanRowRetired => l in rows && l !in records
  }

  type Actions = seq<(LeaseId, Reason)>

  /** The actions are exactly what is due for the leases in `done`, each taken once. */
  ghost predicate DoesDue(c: Config, records: Records, rows: Rows, done: set<LeaseId>, actions: Actions) {
    && (forall l, why :: (l, why) in actions <==> l in done && Due(c, records, rows, l, why))
    && (forall i, j | 0 <= i < j < |actions| :: actions[i].0 != actions[j].0)
  }

  lemma DoesOne(c: Config, records: Records, rows: Rows, l: LeaseId, actions: Actions)
    requires l in records
    requires
      if l in rows then
        if records[l].phase.Tombstoned? then actions == [(l, TombstoneRowRetired)]
        else actions == if Matches(c, rows, l, records[l]) then [] else [(l, LaneMismatch)]
      else actions == if records[l].phase.Armed? then [(l, RowMissing)] else []
    ensures DoesDue(c, records, rows, {l}, actions)
  {
    forall why ensures (l, why) in actions <==> Due(c, records, rows, l, why) {
      match why case _ =>
    }
  }

  lemma DoesDueMore(
    c: Config, records: Records, rows: Rows, done: set<LeaseId>, actions: Actions, l: LeaseId, more: Actions)
    requires DoesDue(c, records, rows, done, actions) && DoesDue(c, records, rows, {l}, more) && l !in done
    ensures DoesDue(c, records, rows, done + {l}, actions + more)
  {
    forall i, j | 0 <= i < j < |actions + more| ensures (actions + more)[i].0 != (actions + more)[j].0 {
      if i < |actions| <= j {
        assert actions[i] in actions && more[j - |actions|] in more;
        assert (actions[i].0, actions[i].1) in actions && (more[j - |actions|].0, more[j - |actions|].1) in more;
      }
    }
  }

  /** Nothing is due exactly when the stores agree. */
  lemma NothingDueIffAgree(c: Config, records: Records, rows: Rows)
    ensures (forall l, why :: !Due(c, records, rows, l, why)) <==> Agree(c, records, rows)
  {
    if forall l, why :: !Due(c, records, rows, l, why) {
      forall l | l in rows || IsArmed(records, l) ensures IsArmed(records, l) && Matches(c, rows, l, records[l]) {
        assert !Due(c, records, rows, l, OrphanRowRetired) && !Due(c, records, rows, l, TombstoneRowRetired);
        assert !Due(c, records, rows, l, RowMissing) && !Due(c, records, rows, l, LaneMismatch);
      }
    }
  }

  /** From any stores whatever, the settled stores agree, and settling them again changes nothing. */
  lemma SettledAgrees(c: Config, now: int, records: Records, rows: Rows, trees: set<Name>)
    ensures
      var records', rows' := SettledRecords(c, now, records, rows), SettledRows(c, records, rows);
      && Agree(c, records', rows')
      && SettledRecords(c, now, records', rows') == records' && SettledRows(c, records', rows') == rows'
      && SettledTrees(c, records', rows', trees) == trees
  {
  }

  /** A lease that was already right keeps its record and row, and keeps its worktree exactly when
      no armed record without a matching row carries the same worktree name. */
  lemma SettlingSparesLive(c: Config, now: int, records: Records, rows: Rows, trees: set<Name>, l: LeaseId)
    requires IsArmed(records, l) && Matches(c, rows, l, records[l]) && records[l].name in trees
    ensures l in SettledRecords(c, now, records, rows) && SettledRecords(c, now, records, rows)[l] == records[l]
    ensures l in SettledRows(c, records, rows) && SettledRows(c, records, rows)[l] == rows[l]
    ensures records[l].name in SettledTrees(c, records, rows, trees)
       <==> forall m | m in records && DoomedIn(c, records, rows, m) :: records[m].name != records[l].name
  {
  }

  /** The two halves together do all that is due. */
  lemma PassDoesDue(c: Config, records: Records, rows: Rows, first: Actions, second: Actions)
    requires DoesDue(c, records, rows, records.Keys, first) && DoesDue(c, records, rows, rows.Keys - records.Keys, second)
    ensures forall l: LeaseId, why :: (l, why) in first + second <==> Due(c, records, rows, l, why)
    ensures forall i, j | 0 <= i < j < |first + second| :: (first + second)[i].0 != (first + second)[j].0
    ensures first + second == [] <==> Agree(c, records, rows)
  {
    var all := first + second;
    forall i, j | 0 <= i < j < |all| ensures all[i].0 != all[j].0 {
      if i < |first| <= j {
        assert (first[i].0, first[i].1) in first && (second[j - |first|].0, second[j - |first|].1) in second;
      }
    }
    NothingDueIffAgree(c, records, rows);
    if all != [] {
      assert (all[0].0, all[0].1) in all;
    }
  }

  class Seat {
    const c: Config
    const now: int
    var records: Records
    var rows: Rows
    var trees: set<Name>

    constructor (c: Config, now: int, records: Records, rows: Rows, trees: set<Name>)
      ensures this.c == c && this.now == now && this.records == records && this.rows == rows && this.trees == trees
    {
      this.c, this.now, this.records, this.rows, this.trees := c, now, records, rows, trees;
    }

    method Retire(l: LeaseId) returns (retired: bool)
      modifies this`rows
      ensures rows == old(rows) - {l} && (retired <==> l in old(rows))
    {
      retired := l in rows;
      rows := rows - {l};
    }

    /** One record of the snapshot. */
    method SettleRecord(rowSnap: Rows, recordSnap: Records, l: LeaseId,
                        ghost trees0: set<Name>, ghost done: set<LeaseId>)
      returns (actions: Actions)
      requires l in recordSnap && l !in done && done <= recordSnap.Keys
      requires records == RecordsAfter(c, now, recordSnap, rowSnap, done)
      requires rows == RowsAfter(c, recordSnap, rowSnap, done)
      requires trees == TreesAfter(c, recordSnap, rowSnap, trees0, done)
      modifies this
      ensures records == RecordsAfter(c, now, recordSnap, rowSnap, done + {l})
      ensures rows == RowsAfter(c, recordSnap, rowSnap, done + {l})
      ensures trees == TreesAfter(c, recordSnap, rowSnap, trees0, done + {l})
      ensures DoesDue(c, recordSnap, rowSnap, {l}, actions)
    {
      actions := [];
      var record := recordSnap[l];
      if record.phase.Tombstoned? {
        if l in rowSnap {
          var retired := Retire(l);
          if retired { actions := [(l, TombstoneRowRetired)]; }
        }
      } else if !Matches(c, rowSnap, l, record) {
        var latest := records[l];
        if latest.phase.Armed? && !Matches(c, rows, l, latest) {
          trees := trees - {latest.name};
          records := records[l := Closed(latest, now)];
          if l in rows { var _ := Retire(l); }
          actions := [(l, if l in rowSnap then LaneMismatch else RowMissing)];
        }
      }
      DoesOne(c, recordSnap, rowSnap, l, actions);
    }

    /** First half of the pass: every record of the snapshot, in any order. */
    method SettleRecords(rowSnap: Rows, recordSnap: Records)
      returns (actions: Actions)
      requires rowSnap == rows && recordSnap == records
      modifies this
      ensures records == SettledRecords(c, now, old(records), old(rows))
      ensures rows == RowsAfter(c, old(records), old(rows), old(records).Keys)
      ensures trees == SettledTrees(c, old(records), old(rows), old(trees))
      ensures DoesDue(c, old(records), old(rows), old(records).Keys, actions)
    {
      actions := [];
      var todo := recordSnap.Keys;
      ghost var done: set<LeaseId> := {};
      while todo != {}
        invariant todo !! done && todo + done == recordSnap.Keys
        invariant records == RecordsAfter(c, now, recordSnap, rowSnap, done)
        invariant rows == RowsAfter(c, recordSnap, rowSnap, done)
        invariant trees == TreesAfter(c, recordSnap, rowSnap, old(trees), done)
        invariant DoesDue(c, recordSnap, rowSnap, done, actions)
        decreases todo
      {
        var l :| l in todo;
        var more := SettleRecord(rowSnap, recordSnap, l, old(trees), done);
        DoesDueMore(c, recordSnap, rowSnap, done, actions, l, more);
        actions := actions + more;
        todo, done := todo - {l}, done + {l};
      }
      assert done == recordSnap.Keys;
    }

    /** Second half: rows of the snapshot with no record in it. */
    method DropOrphanRows(rowSnap: Rows, recordSnap: Records)
      returns (actions: Actions)
      requires forall l | l in rowSnap && l !in recordSnap :: l in rows
      modifies this`rows
      ensures rows == old(rows) - (rowSnap.Keys - recordSnap.Keys)
      ensures DoesDue(c, recordSnap, rowSnap, rowSnap.Keys - recordSnap.Keys, actions)
    {
      actions := [];
      var todo := rowSnap.Keys;
      while todo != {}
        invariant todo <= rowSnap.Keys
        invariant rows == old(rows) - (rowSnap.Keys - recordSnap.Keys - todo)
        invariant DoesDue(c, recordSnap, rowSnap, rowSnap.Keys - recordSnap.Keys - todo, actions)
        decreases todo
      {
        var l :| l in todo;
        todo := todo - {l};
        if l !in recordSnap {
          var retired := Retire(l);
          ghost var done := rowSnap.Keys - recordSnap.Keys - todo - {l};
          if retired {
            DoesDueMore(c, recordSnap, rowSnap, done, actions, l, [(l, OrphanRowRetired)]);
            actions := actions + [(l, OrphanRowRetired)];
          }
          assert done + {l} == rowSnap.Keys - recordSnap.Keys - todo;
        } else {
          assert rowSnap.Keys - recordSnap.Keys - todo == rowSnap.Keys - recordSnap.Keys - (todo + {l});
        }
      }
    }

    /** A whole pass reaches exactly the settled stores, and acts iff the stores did not agree. */
    method ReconcileLaneRows() returns (actions: Actions)
      modifies this
      ensures records == SettledRecords(c, now, old(records), old(rows))
      ensures rows == SettledRows(c, old(records), old(rows))
      ensures trees == SettledTrees(c, old(records), old(rows), old(trees))
      ensures Agree(c, records, rows)
      ensures forall l: LeaseId, why :: (l, why) in actions <==> Due(c, old(records), old(rows), l, why)
      ensures forall i, j | 0 <= i < j < |actions| :: actions[i].0 != actions[j].0
      ensures actions == [] <==> Agree(c, old(records), old(rows))
    {
      var rowSnap := rows;
      var recordSnap := records;
      var first := SettleRecords(rowSnap, recordSnap);
      var second := DropOrphanRows(rowSnap, recordSnap);
      actions := first + second;
      PassDoesDue(c, recordSnap, rowSnap, first, second);
      SettledAgrees(c, now, recordSnap, rowSnap, trees);
    }
  }

  /** The pass twice in a row: the second takes no action and changes nothing. */
  method ReconcileTwice(seat: Seat) returns (second: seq<(LeaseId, Reason)>)
    modifies seat
    ensures second == [] && Agree(seat.c, seat.records, seat.rows)
    ensures seat.records == SettledRecords(seat.c, seat.now, old(seat.records), old(seat.rows))
    ensures seat.rows == SettledRows(seat.c, old(seat.records), old(seat.rows))
    ensures seat.trees == SettledTrees(seat.c, old(seat.records), old(seat.rows), old(seat.trees))
  {
    var _ := seat.ReconcileLaneRows();
    SettledAgrees(seat.c, seat.now, old(seat.records), old(seat.rows), seat.trees);
    second := seat.ReconcileLaneRows();
  }
}
