/**
  Runs that show why the lease theorems carry their conditions. Each starts from stores an earlier
  boot can leave behind.
 */
module LeaseCounterexamples {
  import opened Common
  import opened LeaseProtocol
  import opened LeaseInvariant
  import opened LeaseBooks
  import opened LeaseLocks
  import opened LeasePaths
  import opened LeaseReplies
  import opened LeaseRequests
  import opened LeaseReplays

  const CONFIG := Config(Gated, Gated, true, 4, 4, 30)

  /** Lease 0, armed by request 7 under worktree name 5, as a boot at time 50 may find it. */
  function Left(phase: Phase, rows: map<LeaseId, Lane>, trees: set<Name>, results: map<RequestId, Outcome>): State {
    State(map[0 := Record(1, 5, Gated, 7, 100, phase)], rows, trees, map[], map[], map[], map[], results,
          50, {0}, map[0 := Some(7)], {})
  }

  lemma LeftIsBoot(phase: Phase, rows: map<LeaseId, Lane>, trees: set<Name>, results: map<RequestId, Outcome>)
    requires rows == map[] || rows == map[0 := Gated]
    requires results == map[] || (results == map[7 := ArmOk(0)] && rows == map[0 := Gated])
    ensures Init(CONFIG, Left(phase, rows, trees, results))
    ensures Inv(CONFIG, Left(phase, rows, trees, results)) && LocksOk(Left(phase, rows, trees, results))
  {
    var s := Left(phase, rows, trees, results);
    SubsetSize(ArmedSet(s.records), {0});
    forall x ensures |ArmedBy(s.records, x)| <= 4 {
      SubsetSize(ArmedBy(s.records, x), {0});
    }
    forall l ensures SlotOk(At(s, l)) {}
    RunKeepsInv(CONFIG, [s], [], 0);
  }

  // ---------------------------------------------------------------------------
  // A durable ok outlives its lease
  // ---------------------------------------------------------------------------

  lemma DurableReplayOutlivesLease() returns (acts: seq<Action>, s: State)
    ensures After(CONFIG, Left(Armed, map[0 := Gated], {5}, map[7 := ArmOk(0)]), acts) == Some(s)
    ensures ArmEnabled(CONFIG, s, ReplayDurable(7)) && s.results[7] == ArmOk(0)
    ensures !IsArmed(s.records, 0) && 5 !in s.trees
  {
    LeftIsBoot(Armed, map[0 := Gated], {5}, map[7 := ArmOk(0)]);
    acts, s := DurableReplayCanBeStale(CONFIG, Left(Armed, map[0 := Gated], {5}, map[7 := ArmOk(0)]), 7);
  }

  // ---------------------------------------------------------------------------
  // Two holders of a collected lease
  // ---------------------------------------------------------------------------

  const AGED := Left(Tombstoned(0), map[0 := Gated], {}, map[])

  lemma Finds(s: State, t: Thread) returns (acts: seq<Action>)
    requires Pc(s, t).Idle? && !t.Worker? && MayCollect(CONFIG, s, 0)
    ensures After(CONFIG, s, acts) == Some(Go(s, t, Collecting(0)))
  {
    var s';
    acts, s' := Do(CONFIG, s, [], s, By(t, FindAged(0)));
  }

  lemma DropsRecord(s: State, t: Thread) returns (acts: seq<Action>)
    requires Pc(s, t) == Collecting(0)
    ensures After(CONFIG, s, acts) == Some(Go(s, t, Dropped(0)).(records := s.records - {0}, pruned := s.pruned + {0}))
  {
    var s';
    acts, s' := Do(CONFIG, s, [], s, By(t, DropRecord));
  }

  lemma DropsLock(s: State, t: Thread) returns (acts: seq<Action>)
    requires Pc(s, t) == Dropped(0)
    ensures After(CONFIG, s, acts)
         == Some(s.(pcs := s.pcs[t := Idle], locks := s.locks - {0}, unlinks := s.unlinks[0 := File(s, 0) + 1]))
  {
    var s';
    acts, s' := Do(CONFIG, s, [], s, By(t, DropLock));
  }

  lemma CollectsRecord(s: State, t: Thread) returns (acts: seq<Action>, s': State)
    requires Pc(s, t).Idle? && !t.Worker? && MayCollect(CONFIG, s, 0)
    ensures After(CONFIG, s, acts) == Some(s')
    ensures s'.records == s.records - {0} && s'.rows == s.rows && s'.locks == s.locks && s'.unlinks == s.unlinks
    ensures Pc(s', t) == Dropped(0) && forall u | u != t :: Pc(s', u) == Pc(s, u)
  {
    var a := Finds(s, t);
    var s1 := Go(s, t, Collecting(0));
    var b := DropsRecord(s1, t);
    AfterJoin(CONFIG, s, a, s1, b);
    acts, s' := a + b, Go(s1, t, Dropped(0)).(records := s1.records - {0}, pruned := s1.pruned + {0});
  }

  /** Collection of an aged tombstone: the record, then the lock file. */
  lemma Collects(s: State, t: Thread) returns (acts: seq<Action>, s': State)
    requires Pc(s, t).Idle? && !t.Worker? && MayCollect(CONFIG, s, 0)
    ensures After(CONFIG, s, acts) == Some(s')
    ensures s'.records == s.records - {0} && s'.rows == s.rows && s'.locks == s.locks - {0}
    ensures File(s', 0) == File(s, 0) + 1
    ensures Pc(s', t).Idle? && forall u | u != t :: Pc(s', u) == Pc(s, u)
  {
    var a, s1 := CollectsRecord(s, t);
    var b := DropsLock(s1, t);
    AfterJoin(CONFIG, s, a, s1, b);
    acts, s' := a + b,
      s1.(pcs := s1.pcs[t := Idle], locks := s1.locks - {0}, unlinks := s1.unlinks[0 := File(s1, 0) + 1]);
  }

  /** A tombstone past its age has a leftover row. The heartbeat's lane pass takes the lease to retire
      the row; the inbox thread's reconcile collects the tombstone, lock file and all, and its own
      lane pass takes the lease too, as an orphan row. */
  lemma CollectedLeaseHasTwoHolders() returns (acts: seq<Action>, s: State)
    ensures Init(CONFIG, AGED) && After(CONFIG, AGED, acts) == Some(s)
    ensures Inside(s, Inbox, 0) && Inside(s, Heartbeat, 0)
    ensures MoveEnabled(CONFIG, s, Inbox, Retire) && MoveEnabled(CONFIG, s, Heartbeat, Retire)
  {
    LeftIsBoot(Tombstoned(0), map[0 := Gated], {}, map[]);
    var a, s1 := PassTakes(CONFIG, AGED, Heartbeat, 0, TombstonedRow);
    var b, s2 := Collects(s1, Inbox);
    assert s2.records == map[] && s2.rows == map[0 := Gated] && s2.locks == map[];
    var d;
    d, s := PassTakes(CONFIG, s2, Inbox, 0, OrphanRow);
    AfterJoin(CONFIG, AGED, a, s1, b);
    AfterJoin(CONFIG, AGED, a + b, s2, d);
    acts := a + b + d;
  }

  /** Locking a lock file that was unlinked after it was opened. */
  lemma LocksStale(s: State, t: Thread) returns (acts: seq<Action>)
    requires Pc(s, t).Opening? && Pc(s, t).file != File(s, Pc(s, t).l) && Pc(s, t).entry.Hold?
    ensures After(CONFIG, s, acts) == Some(FlockNext(s, t)) && LocksGone(s, By(t, Flock), Pc(s, t).l)
  {
    var s';
    acts, s' := Do(CONFIG, s, [], s, By(t, Flock));
  }

  /** The same stores. The heartbeat's lane pass has only opened the lock file when the inbox thread
      collects the tombstone, so nobody is inside; the heartbeat then locks the unlinked file, and the
      inbox thread's lane pass makes and locks a new one. */
  lemma UnlinkedFileHasTwoHolders() returns (acts: seq<Action>, s: State)
    ensures Init(CONFIG, AGED) && After(CONFIG, AGED, acts) == Some(s)
    ensures Inside(s, Inbox, 0) && Inside(s, Heartbeat, 0)
    ensures MoveEnabled(CONFIG, s, Inbox, Retire) && MoveEnabled(CONFIG, s, Heartbeat, Retire)
  {
    LeftIsBoot(Tombstoned(0), map[0 := Gated], {}, map[]);
    var a, mid := UnlinkedFileIsLocked();
    var b;
    b, s := PassTakes(CONFIG, mid, Inbox, 0, OrphanRow);
    AfterJoin(CONFIG, AGED, a, mid, b);
    acts := a + b;
  }

  lemma UnlinkedFileIsLocked() returns (acts: seq<Action>, s: State)
    ensures After(CONFIG, AGED, acts) == Some(s) && Pc(s, Inbox).Idle?
    ensures s.records == map[] && s.rows == map[0 := Gated] && s.locks == map[]
    ensures Pc(s, Heartbeat).In? && Pc(s, Heartbeat).l == 0
    ensures Pc(s, Heartbeat).job.LanePass? && Pc(s, Heartbeat).stage == Hold(TombstonedRow)
  {
    var a, s1 := PassOpens(CONFIG, AGED, Heartbeat, 0, TombstonedRow);
    var b, s2 := Collects(s1, Inbox);
    AfterJoin(CONFIG, AGED, a, s1, b);
    var d := LocksStale(s2, Heartbeat);
    AfterJoin(CONFIG, AGED, a + b, s2, d);
    acts, s := a + b + d, FlockNext(s2, Heartbeat);
    assert s1.records - {0} == map[];
  }

  // ---------------------------------------------------------------------------
  // Taken worktree names
  // ---------------------------------------------------------------------------

  const REARM := ArmRequest(8, 1, 5, 100)

  /** Lease 0 is armed and its worktree has been removed by hand. An arm for the same name goes through,
      and a sweep of lease 0 takes its worktree before the ok reply. */
  lemma ReusedNameLosesWorktree() returns (acts: seq<Action>, s: State, rest: seq<Action>)
    ensures After(CONFIG, Left(Armed, map[0 := Gated], {}, map[]), acts) == Some(s)
    ensures ArmEnabled(CONFIG, s, CreateTree) && LosesTree(CONFIG, s, rest)
  {
    var s0 := Left(Armed, map[0 := Gated], {}, map[]);
    LeftIsBoot(Armed, map[0 := Gated], {}, map[]);
    SubsetSize(ArmedSet(s0.records), {0});
    SubsetSize(ArmedBy(s0.records, 1), {0});
    acts, s := ArmMints(CONFIG, s0, REARM, 1);
    AfterKeepsInv(CONFIG, s0, acts);
    assert IsArmed(s.records, 0) && s.records[0].name == 5;
    rest := TakenCanLose(CONFIG, s);
  }

  lemma TurnBegins(s: State) returns (acts: seq<Action>, s': State)
    requires 0 !in s.turns && 5 !in s.trees
    ensures After(CONFIG, s, acts) == Some(s') && s' == s.(trees := s.trees + {5}, turns := s.turns[0 := 5])
  {
    acts, s' := Do(CONFIG, s, [], s, BeginTurn(0, 5, true));
  }

  /** The same stores. An ordinary turn makes worktree 5 and a sweep of the expired lease 0 removes it. */
  lemma TurnLosesItsTree() returns (acts: seq<Action>, s: State)
    ensures After(CONFIG, Left(Armed, map[0 := Gated], {}, map[]), acts) == Some(s) && Inv(CONFIG, s) && LocksOk(s)
    ensures Pc(s, Inbox).Idle? && s.turns == map[0 := 5] && s.trees == {} && s.results == map[] && s.used == {0}
    ensures s.records.Keys == {0} && s.records[0].phase.Tombstoned? && s.records[0].request == 7
  {
    var s0 := Left(Armed, map[0 := Gated], {}, map[]);
    LeftIsBoot(Armed, map[0 := Gated], {}, map[]);
    var a, s1 := TurnBegins(s0);
    AfterKeepsInv(CONFIG, s0, a);
    var b;
    b, s := SweepCloses(CONFIG, s1, 0);
    AfterJoin(CONFIG, s0, a, s1, b);
    acts := a + b;
    AfterKeepsInv(CONFIG, s0, acts);
    assert SlotOk(At(s, 0)) && SlotOk(At(s1, 0));
  }

  /** An arm then makes it again: no armed lease has the name, but the turn removes it at its end,
      before the ok reply. */
  lemma TurnTakesWorktree() returns (acts: seq<Action>, s: State, rest: seq<Action>)
    ensures After(CONFIG, Left(Armed, map[0 := Gated], {}, map[]), acts) == Some(s)
    ensures ArmEnabled(CONFIG, s, CreateTree) && LosesTree(CONFIG, s, rest)
    ensures forall l | IsArmed(s.records, l) :: s.records[l].name != 5
  {
    var a, s1 := TurnLosesItsTree();
    assert SlotOk(At(s1, 1));
    assert ArmedSet(s1.records) == {} && ArmedBy(s1.records, 1) == {};
    var b;
    b, s := ArmMints(CONFIG, s1, REARM, 1);
    AfterJoin(CONFIG, Left(Armed, map[0 := Gated], {}, map[]), a, s1, b);
    acts := a + b;
    AfterKeepsInv(CONFIG, s1, b);
    assert 0 in s.turns && s.turns[0] == 5;
    rest := TakenCanLose(CONFIG, s);
  }
}
