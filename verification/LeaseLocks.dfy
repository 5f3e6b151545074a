/**
  Exclusivity of the per-lease lock. Collecting a tombstone unlinks the lock file without holding the
  lock, so exclusivity is lost exactly when that happens while a thread is inside, or when a thread
  locks a file that was unlinked after it opened it.
 */
module LeaseLocks {
  import opened Common
  import opened LeaseProtocol
  import opened LeaseInvariant

  predicate Inside(s: State, t: Thread, l: LeaseId) {
    Pc(s, t).In? && Pc(s, t).l == l
  }

  /** Every thread inside the critical section of `l` owns the lock file of `l`. */
  ghost predicate Owned(s: State, l: LeaseId) {
    forall t :: Inside(s, t, l) ==> l in s.locks && s.locks[l] == t
  }

  /** The step unlinks the lock file of `l` while some thread is inside. */
  ghost predicate DropsHeld(s: State, a: Action, l: LeaseId) {
    && a.By? && a.move.DropLock? && Pc(s, a.t) == Dropped(l)
    && exists t :: Inside(s, t, l)
  }

  /** The step locks a lock file of `l` that was unlinked after the thread opened it. */
  predicate LocksGone(s: State, a: Action, l: LeaseId) {
    a.By? && a.move.Flock? && Pc(s, a.t).Opening? && Pc(s, a.t).l == l && Pc(s, a.t).file != File(s, l)
  }

  /** The two ways exclusivity of `l` ends. */
  ghost predicate Breaks(s: State, a: Action, l: LeaseId) {
    DropsHeld(s, a, l) || LocksGone(s, a, l)
  }

  /** A held lock is held by the thread inside; no thread keeps a lock behind. */
  ghost predicate LocksOk(s: State) {
    forall l | l in s.locks :: Inside(s, s.locks[l], l)
  }

  // ---------------------------------------------------------------------------
  // One step
  // ---------------------------------------------------------------------------

  lemma FlockStep(s: State, t: Thread)
    requires LocksOk(s) && Pc(s, t).Opening?
    requires Pc(s, t).file == File(s, Pc(s, t).l) ==> Pc(s, t).l !in s.locks
    ensures LocksOk(FlockNext(s, t))
    ensures forall m | Owned(s, m) ::
      Owned(FlockNext(s, t), m) <==> m != Pc(s, t).l || Pc(s, t).file == File(s, Pc(s, t).l)
  {
    var pc, s' := Pc(s, t), FlockNext(s, t);
    assert forall u | u != t :: Pc(s', u) == Pc(s, u);
    assert Inside(s', t, pc.l) && forall m | m in s.locks :: s.locks[m] != t;
    forall m | m in s'.locks ensures Inside(s', s'.locks[m], m) {
      if m in s.locks {
        assert Inside(s, s.locks[m], m);
      }
    }
    forall m | Owned(s, m) && (m != pc.l || pc.file == File(s, pc.l)) ensures Owned(s', m) {
      forall u | Inside(s', u, m) ensures m in s'.locks && s'.locks[m] == u {
        if u != t {
          assert Inside(s, u, m);
        }
      }
    }
  }

  /** Thread `t` steps out of `l`, or out of no section at all. */
  lemma OutStep(s: State, s': State, t: Thread, l: LeaseId)
    requires LocksOk(s) && !Pc(s', t).In? && (Pc(s, t).In? ==> Pc(s, t).l == l && s'.locks == Unlock(s, t, l))
    requires !Pc(s, t).In? ==> s'.locks == s.locks
    requires forall u | u != t :: Pc(s', u) == Pc(s, u)
    ensures LocksOk(s') && forall m | Owned(s, m) :: Owned(s', m)
  {
    forall m | m in s'.locks ensures Inside(s', s'.locks[m], m) {
      assert Inside(s, s.locks[m], m);
    }
    forall m, u | Owned(s, m) && Inside(s', u, m) ensures m in s'.locks && s'.locks[m] == u {
      assert Inside(s, u, m);
    }
  }

  lemma LeaveStep(s: State, t: Thread, dropTree: bool)
    requires LocksOk(s)
    ensures LocksOk(LeaveNext(s, t, dropTree)) && forall m | Owned(s, m) :: Owned(LeaveNext(s, t, dropTree), m)
  {
    OutStep(s, LeaveNext(s, t, dropTree), t, if Pc(s, t).In? then Pc(s, t).l else 0);
  }

  lemma DropLockStep(c: Config, s: State, t: Thread, l: LeaseId)
    requires Pc(s, t) == Dropped(l) && LocksOk(s)
    ensures LocksOk(MoveNext(c, s, t, DropLock))
    ensures forall m | m != l && Owned(s, m) :: Owned(MoveNext(c, s, t, DropLock), m)
    ensures Owned(MoveNext(c, s, t, DropLock), l) <==> !exists u :: Inside(s, u, l)
  {
    var s' := MoveNext(c, s, t, DropLock);
    assert forall u, m :: Inside(s', u, m) <==> Inside(s, u, m);
    forall m | m in s'.locks ensures Inside(s', s'.locks[m], m) {
      assert Inside(s, s.locks[m], m);
    }
  }

  /** A step that leaves the locks alone and moves no thread in or out of a section. */
  lemma StillStep(s: State, s': State)
    requires s'.locks == s.locks && LocksOk(s)
    requires forall u, m :: Inside(s', u, m) <==> Inside(s, u, m)
    ensures LocksOk(s') && forall m | Owned(s, m) :: Owned(s', m)
  {
    forall m | m in s'.locks ensures Inside(s', s'.locks[m], m) {
      assert Inside(s, s.locks[m], m);
    }
  }

  predicate Still(move: Move) {
    !move.Flock? && !move.Leave? && !move.DropLock?
  }

  lemma AsideStaysInside(c: Config, s: State, t: Thread, move: Move)
    requires MoveEnabled(c, s, t, move) && Aside(move)
    ensures
      var pc, pc' := Pc(s, t), Pc(MoveNext(c, s, t, move), t);
      (pc'.In? <==> pc.In?) && (pc.In? ==> pc'.l == pc.l)
  {
    match move case _ =>
  }

  lemma MoveStaysInside(c: Config, s: State, t: Thread, move: Move)
    requires MoveEnabled(c, s, t, move) && Still(move)
    ensures
      var s' := MoveNext(c, s, t, move);
      var pc, pc' := Pc(s, t), Pc(s', t);
      s'.locks == s.locks && (pc'.In? <==> pc.In?) && (pc.In? ==> pc'.l == pc.l)
  {
    if Aside(move) {
      MoveAside(c, s, t, move);
      AsideStaysInside(c, s, t, move);
    }
  }

  lemma MoveOnlyMoves(c: Config, s: State, t: Thread, move: Move, u: Thread)
    requires MoveEnabled(c, s, t, move) && u != t
    ensures Pc(MoveNext(c, s, t, move), u) == Pc(s, u)
  {
    if Aside(move) {
      MoveAside(c, s, t, move);
    } else {
      match move case _ =>
    }
  }

  lemma MoveIsStill(c: Config, s: State, t: Thread, move: Move)
    requires MoveEnabled(c, s, t, move) && Still(move)
    ensures
      var s' := MoveNext(c, s, t, move);
      s'.locks == s.locks && forall u, m :: Inside(s', u, m) <==> Inside(s, u, m)
  {
    MoveStaysInside(c, s, t, move);
    forall u | u != t ensures Pc(MoveNext(c, s, t, move), u) == Pc(s, u) {
      MoveOnlyMoves(c, s, t, move, u);
    }
  }

  lemma ArmStaysInside(c: Config, s: State, step: ArmStep)
    requires ArmEnabled(c, s, step)
    ensures
      var s' := ArmNext(c, s, step);
      var pc, pc' := Pc(s, Inbox), Pc(s', Inbox);
      s'.locks == s.locks && (pc'.In? <==> pc.In?) && (pc.In? ==> pc'.l == pc.l)
  {
  }

  lemma ArmIsStill(c: Config, s: State, step: ArmStep)
    requires ArmEnabled(c, s, step)
    ensures
      var s' := ArmNext(c, s, step);
      s'.locks == s.locks && forall u, m :: Inside(s', u, m) <==> Inside(s, u, m)
  {
    ArmStaysInside(c, s, step);
    assert forall u | u != Inbox :: Pc(ArmNext(c, s, step), u) == Pc(s, u);
  }

  lemma MoveStep(c: Config, s: State, t: Thread, move: Move, l: LeaseId)
    requires MoveEnabled(c, s, t, move) && LocksOk(s)
    ensures LocksOk(MoveNext(c, s, t, move))
    ensures Owned(s, l) ==> (Owned(MoveNext(c, s, t, move), l) <==> !Breaks(s, By(t, move), l))
  {
    if move.Flock? {
      FlockStep(s, t);
    } else if move.Leave? {
      LeaveStep(s, t, move.dropTree);
    } else if move.DropLock? {
      DropLockStep(c, s, t, Pc(s, t).l);
    } else {
      MoveIsStill(c, s, t, move);
      StillStep(s, MoveNext(c, s, t, move));
    }
  }

  /** A step takes exclusivity of `l` away exactly when it unlinks the lock file under a thread inside,
      or locks a lock file that was unlinked after it was opened. */
  lemma ExclusivityStep(c: Config, s: State, a: Action, l: LeaseId)
    requires Enabled(c, s, a) && LocksOk(s)
    ensures LocksOk(Next(c, s, a))
    ensures Owned(s, l) ==> (Owned(Next(c, s, a), l) <==> !Breaks(s, a, l))
  {
    if a.By? {
      MoveStep(c, s, a.t, a.move, l);
    } else if a.Arm? {
      ArmIsStill(c, s, a.step);
      StillStep(s, Next(c, s, a));
    } else if !a.Crash? {
      StillStep(s, Next(c, s, a));
    }
  }

  // ---------------------------------------------------------------------------
  // Runs
  // ---------------------------------------------------------------------------

  lemma {:induction false} RunKeepsLocks(c: Config, states: seq<State>, acts: seq<Action>, i: nat)
    requires IsRun(c, states, acts) && i <= |acts|
    ensures LocksOk(states[i])
  {
    if i > 0 {
      RunKeepsLocks(c, states, acts, i - 1);
      assert StepAt(c, states, acts, i - 1);
      ExclusivityStep(c, states[i - 1], acts[i - 1], 0);
    }
  }

  lemma {:induction false} ExclusiveUntilBroken(c: Config, states: seq<State>, acts: seq<Action>, i: nat, l: LeaseId)
    requires IsRun(c, states, acts) && i <= |acts|
    requires forall k | 0 <= k < i :: !Breaks(states[k], acts[k], l)
    ensures Owned(states[i], l)
  {
    if i > 0 {
      ExclusiveUntilBroken(c, states, acts, i - 1, l);
      RunKeepsLocks(c, states, acts, i - 1);
      assert StepAt(c, states, acts, i - 1);
      ExclusivityStep(c, states[i - 1], acts[i - 1], l);
    }
  }

  /** Over every run, the lock of `l` stays exclusive exactly as long as its lock file is never unlinked
      under a thread inside and no thread locks one unlinked after it opened it. */
  lemma MutualExclusion(c: Config, states: seq<State>, acts: seq<Action>, i: nat, l: LeaseId)
    requires IsRun(c, states, acts) && i <= |acts|
    ensures (forall k | 0 <= k <= i :: Owned(states[k], l))
       <==> (forall k | 0 <= k < i :: !Breaks(states[k], acts[k], l))
    ensures (forall k | 0 <= k < i :: !Breaks(states[k], acts[k], l)) ==>
      forall t, u | Inside(states[i], t, l) && Inside(states[i], u, l) :: t == u
  {
    if forall k | 0 <= k < i :: !Breaks(states[k], acts[k], l) {
      forall k | 0 <= k <= i ensures Owned(states[k], l) {
        ExclusiveUntilBroken(c, states, acts, k, l);
      }
    }
    if forall k | 0 <= k <= i :: Owned(states[k], l) {
      forall k | 0 <= k < i ensures !Breaks(states[k], acts[k], l) {
        RunKeepsLocks(c, states, acts, k);
        assert StepAt(c, states, acts, k);
        ExclusivityStep(c, states[k], acts[k], l);
        assert Owned(states[k + 1], l);
      }
    }
  }

  /** When a lane pass reclaims, tombstones or retires a lease whose exclusivity was never broken, it
      owns that lease's lock. */
  lemma LanePassOwnsItsLock(c: Config, states: seq<State>, acts: seq<Action>, i: nat, t: Thread, move: Move)
    requires IsRun(c, states, acts) && i < |acts| && acts[i] == By(t, move) && Destructive(move)
    requires Pc(states[i], t).In? && Pc(states[i], t).job.LanePass?
    ensures
      var l := Pc(states[i], t).l;
      && !Healthy(c, states[i], l)
      && ((forall k | 0 <= k < i :: !Breaks(states[k], acts[k], l)) ==>
            l in states[i].locks && states[i].locks[l] == t)
  {
    LanePassSparesLiveLeases(c, states, acts, i, t, move);
    var l := Pc(states[i], t).l;
    if forall k | 0 <= k < i :: !Breaks(states[k], acts[k], l) {
      ExclusiveUntilBroken(c, states, acts, i, l);
      assert Inside(states[i], t, l);
    }
  }
}
