/**
  Steps the threads can always take next: from any state the protocol can be in, a heartbeat sweep
  can close any armed lease the inbox thread is not inside.
 */
module LeasePaths {
  import opened Common
  import opened LeaseProtocol
  import opened LeaseInvariant
  import opened LeaseLocks

  /** The state after `acts`, if every one of them is enabled in turn. */
  function After(c: Config, s: State, acts: seq<Action>): Option<State> {
    if acts == [] then Some(s)
    else
      var last := |acts| - 1;
      var before := After(c, s, acts[..last]);
      if before.Some? && Enabled(c, before.value, acts[last]) then Some(Next(c, before.value, acts[last])) else None
  }

  lemma Do(c: Config, s0: State, acts: seq<Action>, s: State, a: Action) returns (acts': seq<Action>, s': State)
    requires After(c, s0, acts) == Some(s) && Enabled(c, s, a)
    ensures acts' == acts + [a] && s' == Next(c, s, a) && After(c, s0, acts') == Some(s')
  {
    acts', s' := acts + [a], Next(c, s, a);
    assert acts'[..|acts|] == acts;
  }

  lemma {:induction false} AfterJoin(c: Config, s: State, a: seq<Action>, mid: State, b: seq<Action>)
    requires After(c, s, a) == Some(mid)
    ensures After(c, s, a + b) == After(c, mid, b)
  {
    if b == [] {
      assert a + b == a;
    } else {
      var n := |b| - 1;
      AfterJoin(c, s, a, mid, b[..n]);
      assert (a + b)[..|a| + n] == a + b[..n] && (a + b)[|a| + n] == b[n];
    }
  }

  lemma {:induction false} AfterKeepsInv(c: Config, s: State, acts: seq<Action>)
    requires Inv(c, s) && LocksOk(s) && After(c, s, acts).Some?
    ensures Inv(c, After(c, s, acts).value) && LocksOk(After(c, s, acts).value)
  {
    if acts != [] {
      var n := |acts| - 1;
      AfterKeepsInv(c, s, acts[..n]);
      StepKeepsInv(c, After(c, s, acts[..n]).value, acts[n]);
      ExclusivityStep(c, After(c, s, acts[..n]).value, acts[n], 0);
    }
  }

  /** The inbox thread takes no step, and nothing crashes. */
  predicate Waits(a: Action) {
    !a.Arm? && !a.Crash? && (a.By? ==> !a.t.Inbox?)
  }

  ghost predicate AllWait(acts: seq<Action>) {
    forall i | 0 <= i < |acts| :: Waits(acts[i])
  }

  /** Nothing but locks, other threads and the clock differs. */
  predicate SameStores(s: State, s': State) {
    && s'.records == s.records && s'.rows == s.rows && s'.trees == s.trees && s'.turns == s.turns
    && s'.results == s.results && s'.born == s.born && s'.used == s.used && Pc(s', Inbox) == Pc(s, Inbox)
  }

  // ---------------------------------------------------------------------------
  // Getting the heartbeat thread and the lock free
  // ---------------------------------------------------------------------------

  lemma LeaveKeepsStores(s: State, t: Thread)
    requires !t.Inbox?
    ensures SameStores(s, LeaveNext(s, t, false))
    ensures Pc(LeaveNext(s, t, false), t).Idle? || Pc(LeaveNext(s, t, false), t).Between?
    ensures forall l | l in LeaveNext(s, t, false).locks :: l in s.locks
  {
  }

  lemma Leaves(c: Config, s: State, t: Thread) returns (acts: seq<Action>)
    requires !t.Inbox?
    requires Pc(s, t).In? || Pc(s, t).Opening? || Pc(s, t).Admitted? || Pc(s, t).Collecting? || Pc(s, t).Dropped?
    ensures After(c, s, acts) == Some(LeaveNext(s, t, false)) && AllWait(acts)
  {
    var s';
    acts, s' := Do(c, s, [], s, By(t, Leave(false)));
  }

  lemma ReadsRecords(c: Config, s: State, t: Thread) returns (acts: seq<Action>)
    requires Pc(s, t).RowsRead?
    ensures After(c, s, acts) == Some(Go(s, t, Between(Snapshot(Pc(s, t).rows, s.records))))
    ensures !t.Inbox? ==> AllWait(acts)
  {
    var s';
    acts, s' := Do(c, s, [], s, By(t, ReadRecords));
  }

  lemma EndsPass(c: Config, s: State, t: Thread) returns (acts: seq<Action>)
    requires Pc(s, t).Between? && !t.Inbox?
    ensures After(c, s, acts) == Some(Go(s, t, Idle)) && AllWait(acts)
  {
    var s';
    acts, s' := Do(c, s, [], s, By(t, EndPass));
  }

  lemma GoKeepsStores(s: State, t: Thread, pc: PC)
    requires !t.Inbox?
    ensures SameStores(s, Go(s, t, pc)) && Pc(Go(s, t, pc), t) == pc
  {
  }

  /** An exception, or its ordinary end, takes the heartbeat thread out of what it is doing. */
  lemma HeartbeatSettles(c: Config, s: State) returns (acts: seq<Action>, s': State)
    requires Inv(c, s)
    ensures After(c, s, acts) == Some(s') && AllWait(acts) && SameStores(s, s')
    ensures Pc(s', Heartbeat).Idle? || Pc(s', Heartbeat).Between?
  {
    var pc := Pc(s, Heartbeat);
    assert PcOk(c, s, Heartbeat, pc);
    if pc.Idle? || pc.Between? {
      acts, s' := [], s;
    } else if pc.RowsRead? {
      acts := ReadsRecords(c, s, Heartbeat);
      s' := Go(s, Heartbeat, Between(Snapshot(pc.rows, s.records)));
      GoKeepsStores(s, Heartbeat, Between(Snapshot(pc.rows, s.records)));
    } else {
      acts := Leaves(c, s, Heartbeat);
      s' := LeaveNext(s, Heartbeat, false);
      LeaveKeepsStores(s, Heartbeat);
    }
  }

  lemma HeartbeatIdles(c: Config, s: State) returns (acts: seq<Action>, s': State)
    requires Inv(c, s)
    ensures After(c, s, acts) == Some(s') && AllWait(acts) && SameStores(s, s') && Pc(s', Heartbeat).Idle?
  {
    acts, s' := HeartbeatSettles(c, s);
    if Pc(s', Heartbeat).Between? {
      var more := EndsPass(c, s', Heartbeat);
      AfterJoin(c, s, acts, s', more);
      GoKeepsStores(s', Heartbeat, Idle);
      acts, s' := acts + more, Go(s', Heartbeat, Idle);
    }
  }

  /** Whoever holds the lock of `m` can leave; it is not the inbox thread. */
  lemma LockFrees(c: Config, s: State, m: LeaseId) returns (acts: seq<Action>, s': State)
    requires LocksOk(s) && !Inside(s, Inbox, m) && Pc(s, Heartbeat).Idle?
    ensures After(c, s, acts) == Some(s') && AllWait(acts) && SameStores(s, s')
    ensures Pc(s', Heartbeat).Idle? && m !in s'.locks
  {
    if m in s.locks {
      var t := s.locks[m];
      assert Inside(s, t, m);
      acts := Leaves(c, s, t);
      s' := LeaveNext(s, t, false);
      LeaveKeepsStores(s, t);
    } else {
      acts, s' := [], s;
    }
  }

  lemma HeartbeatAndLockFree(c: Config, s: State, m: LeaseId) returns (acts: seq<Action>, s': State)
    requires Inv(c, s) && LocksOk(s) && !Inside(s, Inbox, m)
    ensures After(c, s, acts) == Some(s') && AllWait(acts) && SameStores(s, s')
    ensures Pc(s', Heartbeat).Idle? && m !in s'.locks
  {
    var first, mid := HeartbeatIdles(c, s);
    AfterKeepsInv(c, s, first);
    var second;
    second, s' := LockFrees(c, mid, m);
    acts := first + second;
    AfterJoin(c, s, first, mid, second);
  }

  // ---------------------------------------------------------------------------
  // The sweep
  // ---------------------------------------------------------------------------

  /** What a sweep that finds `m` expired leaves behind. */
  ghost predicate Swept(s: State, s': State, m: LeaseId)
    requires m in s.records
  {
    && m in s'.records && s'.records[m] == Closed(s.records[m], s'.now) && s'.trees == s.trees - {s.records[m].name}
    && s'.turns == s.turns && s'.results == s.results && Pc(s', Inbox) == Pc(s, Inbox)
    && s'.records == s.records[m := s'.records[m]] && s'.rows == s.rows && s'.used == s.used
  }

  lemma Expires(c: Config, s: State, m: LeaseId) returns (acts: seq<Action>, s': State)
    requires m in s.records
    ensures After(c, s, acts) == Some(s') && AllWait(acts) && s' == s.(now := s'.now) && s.records[m].expires <= s'.now
  {
    var at := if s.now < s.records[m].expires then s.records[m].expires else s.now;
    acts, s' := Do(c, s, [], s, Tick(at));
  }

  /** Locking a lock file just opened, with nobody holding it. */
  lemma Flocks(c: Config, s: State, t: Thread) returns (acts: seq<Action>)
    requires Pc(s, t).Opening? && Pc(s, t).file == File(s, Pc(s, t).l) && Pc(s, t).l !in s.locks
    requires Pc(s, t).entry.Hold? || Pc(s, t).entry.Minted?
    ensures After(c, s, acts) == Some(FlockNext(s, t)) && (!t.Inbox? ==> AllWait(acts))
  {
    var s';
    acts, s' := Do(c, s, [], s, By(t, Flock));
  }

  lemma SweepOpensFile(c: Config, s: State, m: LeaseId) returns (acts: seq<Action>)
    requires m in s.born && Pc(s, Heartbeat).Idle?
    ensures After(c, s, acts) == Some(Opened(s, Heartbeat, m, Sweep, Hold(Direct))) && AllWait(acts)
  {
    var s';
    acts, s' := Do(c, s, [], s, By(Heartbeat, OpenForSweep(m)));
  }

  /** What opening and locking change. */
  lemma OpenedAndLocked(s: State, t: Thread, l: LeaseId, job: Job, stage: Stage)
    requires l !in s.locks
    ensures
      var s1 := Opened(s, t, l, job, stage);
      && Pc(s1, t) == Opening(job, l, stage, File(s1, l)) && l !in s1.locks
      && var s2 := FlockNext(s1, t);
         && s2 == s.(pcs := s2.pcs, locks := s.locks[l := t], used := s.used + {l})
         && Pc(s2, t) == In(job, l, stage) && forall u | u != t :: Pc(s2, u) == Pc(s, u)
  {
  }

  lemma SweepLocks(c: Config, s: State, m: LeaseId) returns (acts: seq<Action>, s': State)
    requires m in s.born && m in s.used && Pc(s, Heartbeat).Idle? && m !in s.locks
    ensures After(c, s, acts) == Some(s') && AllWait(acts) && SameStores(s, s') && s'.now == s.now
    ensures Pc(s', Heartbeat) == In(Sweep, m, Hold(Direct))
  {
    OpenedAndLocked(s, Heartbeat, m, Sweep, Hold(Direct));
    var s1 := Opened(s, Heartbeat, m, Sweep, Hold(Direct));
    var a := SweepOpensFile(c, s, m);
    var b := Flocks(c, s1, Heartbeat);
    AfterJoin(c, s, a, s1, b);
    acts, s' := a + b, FlockNext(s1, Heartbeat);
  }

  lemma SweepLoads(c: Config, s: State, m: LeaseId) returns (acts: seq<Action>, s': State)
    requires IsArmed(s.records, m) && Pc(s, Heartbeat) == In(Sweep, m, Hold(Direct))
    ensures After(c, s, acts) == Some(s') && AllWait(acts) && SameStores(s, s') && s'.now == s.now
    ensures Pc(s', Heartbeat) == In(Sweep, m, Open(s.records[m]))
  {
    acts, s' := Do(c, s, [], s, By(Heartbeat, Load));
    assert s' == Go(s, Heartbeat, In(Sweep, m, Open(s.records[m])));
  }

  lemma SweepOpens(c: Config, s: State, m: LeaseId) returns (acts: seq<Action>, s': State)
    requires IsArmed(s.records, m) && m in s.born && m in s.used && Pc(s, Heartbeat).Idle? && m !in s.locks
    ensures After(c, s, acts) == Some(s') && AllWait(acts) && SameStores(s, s') && s.records[m].expires <= s'.now
    ensures Pc(s', Heartbeat) == In(Sweep, m, Open(s.records[m]))
  {
    var a, s1 := Expires(c, s, m);
    var b, s2 := SweepLocks(c, s1, m);
    var d;
    d, s' := SweepLoads(c, s2, m);
    AfterJoin(c, s, a, s1, b);
    AfterJoin(c, s, a + b, s2, d);
    acts := a + b + d;
  }

  lemma SweepFinishes(c: Config, s: State, m: LeaseId) returns (acts: seq<Action>, s': State)
    requires IsArmed(s.records, m) && s.records[m].expires <= s.now
    requires Pc(s, Heartbeat) == In(Sweep, m, Open(s.records[m]))
    ensures After(c, s, acts) == Some(s') && AllWait(acts) && Swept(s, s', m)
  {
    var rec := s.records[m];
    acts, s' := Do(c, s, [], s, By(Heartbeat, Reclaim(true)));
    assert Pc(s', Heartbeat) == In(Sweep, m, Removed(rec, false));
    acts, s' := Do(c, s, acts, s', By(Heartbeat, Tombstone));
  }

  /** From any state of the protocol the next heartbeat sweep can close `m` and remove its worktree. */
  lemma SweepCloses(c: Config, s: State, m: LeaseId) returns (acts: seq<Action>, s': State)
    requires Inv(c, s) && LocksOk(s) && IsArmed(s.records, m) && !Inside(s, Inbox, m)
    ensures After(c, s, acts) == Some(s') && AllWait(acts) && Swept(s, s', m)
  {
    assert SlotOk(At(s, m));
    var a, s1 := HeartbeatAndLockFree(c, s, m);
    var b, s2 := SweepOpens(c, s1, m);
    var d;
    d, s' := SweepFinishes(c, s2, m);
    AfterJoin(c, s, a, s1, b);
    AfterJoin(c, s, a + b, s2, d);
    acts := a + b + d;
  }

  // ---------------------------------------------------------------------------
  // Getting in beside a thread whose lock file was unlinked
  // ---------------------------------------------------------------------------

  lemma ReadsRows(c: Config, s: State, t: Thread) returns (acts: seq<Action>)
    requires Pc(s, t).Idle? && !t.Worker?
    ensures After(c, s, acts) == Some(Go(s, t, RowsRead(s.rows)))
  {
    var s';
    acts, s' := Do(c, s, [], s, By(t, ReadRows));
  }

  lemma PassOpensFile(c: Config, s: State, t: Thread, snap: Snapshot, l: LeaseId, why: Why) returns (acts: seq<Action>)
    requires Pc(s, t) == Between(snap) && MayTake(c, snap, l, why)
    ensures After(c, s, acts) == Some(Opened(s, t, l, LanePass(snap), Hold(why)))
  {
    var s';
    acts, s' := Do(c, s, [], s, By(t, OpenForPass(l, why)));
  }

  /** Nothing but the threads, the locks and the history differs. */
  predicate SameLeases(s: State, s': State) {
    && s'.records == s.records && s'.rows == s.rows && s'.trees == s.trees
    && s'.unlinks == s.unlinks && s'.now == s.now
  }

  lemma PassReads(c: Config, s: State, t: Thread) returns (acts: seq<Action>, s': State)
    requires Pc(s, t).Idle? && !t.Worker?
    ensures After(c, s, acts) == Some(s') && SameLeases(s, s') && s'.locks == s.locks
    ensures Pc(s', t) == Between(Snapshot(s.rows, s.records)) && forall u | u != t :: Pc(s', u) == Pc(s, u)
  {
    var a := ReadsRows(c, s, t);
    var s1 := Go(s, t, RowsRead(s.rows));
    var b := ReadsRecords(c, s1, t);
    AfterJoin(c, s, a, s1, b);
    acts, s' := a + b, Go(s1, t, Between(Snapshot(s.rows, s.records)));
  }

  /** A lane pass reads the stores and opens the lock file of a lease for a reason the snapshot gives. */
  lemma PassOpens(c: Config, s: State, t: Thread, l: LeaseId, why: Why) returns (acts: seq<Action>, s': State)
    requires Pc(s, t).Idle? && !t.Worker? && MayTake(c, Snapshot(s.rows, s.records), l, why)
    ensures After(c, s, acts) == Some(s') && SameLeases(s, s') && s'.locks == s.locks
    ensures Pc(s', t) == Opening(LanePass(Snapshot(s.rows, s.records)), l, Hold(why), File(s, l))
    ensures forall u | u != t :: Pc(s', u) == Pc(s, u)
  {
    var snap := Snapshot(s.rows, s.records);
    var a, s1 := PassReads(c, s, t);
    var b := PassOpensFile(c, s1, t, snap, l, why);
    AfterJoin(c, s, a, s1, b);
    acts, s' := a + b, Opened(s1, t, l, LanePass(snap), Hold(why));
  }

  /** And locks it. */
  lemma PassTakes(c: Config, s: State, t: Thread, l: LeaseId, why: Why) returns (acts: seq<Action>, s': State)
    requires Pc(s, t).Idle? && !t.Worker? && MayTake(c, Snapshot(s.rows, s.records), l, why) && l !in s.locks
    ensures After(c, s, acts) == Some(s')
    ensures SameLeases(s, s') && s'.locks == s.locks[l := t]
    ensures Pc(s', t) == In(LanePass(Snapshot(s.rows, s.records)), l, Hold(why))
    ensures forall u | u != t :: Pc(s', u) == Pc(s, u)
  {
    var a, s1 := PassOpens(c, s, t, l, why);
    var b := Flocks(c, s1, t);
    s' := FlockNext(s1, t);
    AfterJoin(c, s, a, s1, b);
    acts := a + b;
  }

  /** The state after the lock file of `l` was unlinked under thread `t`. */
  lemma AfterDrop(c: Config, s: State, a: Action, l: LeaseId, t: Thread)
    requires Inv(c, s) && Enabled(c, s, a) && DropsHeld(s, a, l) && Inside(s, t, l)
    ensures var s1 := Next(c, s, a);
      Inside(s1, t, l) && l !in s1.locks && l !in s1.records && s1.rows == s.rows
  {
    assert PcOk(c, s, a.t, Pc(s, a.t)) && SlotOk(At(s, l));
    assert t != a.t;
  }

  lemma ReleaseOpensFile(c: Config, s: State, l: LeaseId, sender: Sender) returns (acts: seq<Action>)
    requires Pc(s, Inbox).Idle?
    ensures After(c, s, acts) == Some(Opened(s, Inbox, l, Releasing(sender), Hold(Direct)))
  {
    var s';
    acts, s' := Do(c, s, [], s, By(Inbox, OpenForRelease(l, sender)));
  }

  /** Once the lock file is unlinked under a thread inside, a release request that names the lease lets
      the inbox thread in beside it. */
  lemma DroppedLockAdmitsRelease(c: Config, s: State, a: Action, l: LeaseId, t: Thread, sender: Sender)
    returns (acts: seq<Action>, s': State)
    requires Inv(c, s) && Enabled(c, s, a) && DropsHeld(s, a, l) && Inside(s, t, l) && Pc(Next(c, s, a), Inbox).Idle?
    ensures After(c, Next(c, s, a), acts) == Some(s') && t != Inbox && Inside(s', t, l) && Inside(s', Inbox, l)
  {
    AfterDrop(c, s, a, l, t);
    var s1 := Next(c, s, a);
    acts, s' := ReleaseEnters(c, s1, l, sender);
  }

  lemma ReleaseEnters(c: Config, s: State, l: LeaseId, sender: Sender) returns (acts: seq<Action>, s': State)
    requires Pc(s, Inbox).Idle? && l !in s.locks
    ensures After(c, s, acts) == Some(s') && Inside(s', Inbox, l) && forall u | u != Inbox :: Pc(s', u) == Pc(s, u)
  {
    OpenedAndLocked(s, Inbox, l, Releasing(sender), Hold(Direct));
    var s1 := Opened(s, Inbox, l, Releasing(sender), Hold(Direct));
    var a := ReleaseOpensFile(c, s, l, sender);
    var b := Flocks(c, s1, Inbox);
    AfterJoin(c, s, a, s1, b);
    acts, s' := a + b, FlockNext(s1, Inbox);
  }

  /** And so does a lane pass of either reconciling thread, as long as a row is left. */
  lemma DroppedLockAdmitsPass(c: Config, s: State, a: Action, l: LeaseId, t: Thread, u: Thread)
    returns (acts: seq<Action>, s': State)
    requires Inv(c, s) && Enabled(c, s, a) && DropsHeld(s, a, l) && Inside(s, t, l) && l in s.rows
    requires !u.Worker? && Pc(Next(c, s, a), u).Idle?
    ensures After(c, Next(c, s, a), acts) == Some(s') && t != u && Inside(s', t, l) && Inside(s', u, l)
  {
    AfterDrop(c, s, a, l, t);
    acts, s' := PassTakes(c, Next(c, s, a), u, l, OrphanRow);
  }
}
