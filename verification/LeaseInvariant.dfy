/**
  Every step of the lease protocol, by any thread and through any crash, keeps the protocol invariant;
  so a lane pass never destroys a lease that is alive.
 */
module LeaseInvariant {
  import opened Common
  import opened LeaseProtocol

  // ---------------------------------------------------------------------------
  // Every step keeps the invariant: first what other threads see of it
  // ---------------------------------------------------------------------------

  /** What a step of thread `t` may do to the one lease it touches. */
  predicate Touch(v: Slot, v': Slot, t: Thread) {
    || v' == v
    || v' == v.(used := true)
    || (v.used && v.holder.None? && v' == v.(holder := Some(t)))
    || (v' == v.(holder := None) && v.HeldBy(t))
    || (v.HeldBy(t) && v.Armed() && v'.record.Some? && v'.record.value.phase.Tombstoned?
        && v' == v.(record := Some(v.record.value.(phase := v'.record.value.phase))))
    || (v.HeldBy(t) && t.Inbox? && !v.Born() && v'.record.Some?
        && v' == v.(record := v'.record, origin := Some(Some(v'.record.value.request))))
    || (v.HeldBy(t) && v.record.Some? && t.Inbox? && v' == v.(row := v'.row))
    || (v.Born() && !v.Armed() && v' == v.(row := None))
    || (v.Collectable() && v' == v.(record := None, pruned := true))
    || (v.pruned && v' == v.(holder := None, file := v.file + 1))
    || (!v.used && v' == v.(row := v'.row, origin := Some(None), used := true))
  }

  lemma SlotKeeps(v: Slot, v': Slot, t: Thread)
    requires SlotOk(v) && Touch(v, v', t)
    ensures SlotOk(v')
  {
  }

  lemma StageKeeps(c: Config, v: Slot, v': Slot, t: Thread, u: Thread, job: Job, stage: Stage)
    requires SlotOk(v) && StageOk(c, v, u, job, stage) && Touch(v, v', t) && u != t
    ensures StageOk(c, v', u, job, stage)
  {
  }

  lemma OpeningKeeps(v: Slot, v': Slot, t: Thread, u: Thread, job: Job, stage: Stage, file: nat)
    requires SlotOk(v) && OpeningOk(v, u, job, stage, file) && Touch(v, v', t) && u != t
    ensures OpeningOk(v', u, job, stage, file)
  {
  }

  /** What no step takes back: births, closings, collection, and the row of an armed lease others do not hold. */
  lemma SlotFacts(v: Slot, v': Slot, t: Thread)
    requires SlotOk(v) && Touch(v, v', t)
    ensures v.Born() ==> v'.origin == v.origin
    ensures v.Dead() ==> v'.Dead()
    ensures v.pruned ==> v'.pruned
    ensures v.Collectable() ==> v'.Collectable()
    ensures v.Born() && v'.Armed() ==> v.Armed() && v'.record == v.record
    ensures v.Armed() && v'.Armed() && !t.Inbox? ==> v'.row == v.row
  {
  }

  ghost predicate TouchesOnly(s: State, s': State, t: Thread, l: LeaseId) {
    && (forall u | u != t :: Pc(s', u) == Pc(s, u))
    && (forall m | m != l :: At(s', m) == At(s, m))
    && Touch(At(s, l), At(s', l), t)
  }

  lemma SnapKeeps(s: State, s': State, t: Thread, l: LeaseId, snap: Snapshot)
    requires StoresOk(s) && SnapOk(s, snap) && TouchesOnly(s, s', t, l)
    ensures SnapOk(s', snap)
  {
    forall m ensures At(s, m).Born() ==> At(s', m).Born() && (At(s', m).Armed() ==> At(s, m).Armed())
      ensures At(s, m).Dead() ==> At(s', m).Dead()
    {
      if m == l {
        assert SlotOk(At(s, l));
        SlotFacts(At(s, l), At(s', l), t);
      } else {
        assert At(s', m) == At(s, m);
      }
    }
  }

  lemma OthersInKeep(c: Config, s: State, s': State, t: Thread, l: LeaseId, u: Thread)
    requires StoresOk(s) && PcOk(c, s, u, Pc(s, u)) && u != t && TouchesOnly(s, s', t, l) && Pc(s, u).In?
    ensures PcOk(c, s', u, Pc(s, u))
  {
    var pc := Pc(s, u);
    assert SlotOk(At(s, pc.l));
    if pc.l == l {
      StageKeeps(c, At(s, l), At(s', l), t, u, pc.job, pc.stage);
    } else {
      assert At(s', pc.l) == At(s, pc.l);
    }
    if pc.job.LanePass? { SnapKeeps(s, s', t, l, pc.job.snap); }
  }

  lemma OthersOpeningKeep(c: Config, s: State, s': State, t: Thread, l: LeaseId, u: Thread)
    requires StoresOk(s) && PcOk(c, s, u, Pc(s, u)) && u != t && TouchesOnly(s, s', t, l) && Pc(s, u).Opening?
    ensures PcOk(c, s', u, Pc(s, u))
  {
    var pc := Pc(s, u);
    assert SlotOk(At(s, pc.l));
    if pc.l == l {
      OpeningKeeps(At(s, l), At(s', l), t, u, pc.aim, pc.entry, pc.file);
    } else {
      assert At(s', pc.l) == At(s, pc.l);
    }
    if pc.aim.LanePass? { SnapKeeps(s, s', t, l, pc.aim.snap); }
  }

  lemma OthersOutsideKeep(c: Config, s: State, s': State, t: Thread, l: LeaseId, u: Thread)
    requires StoresOk(s) && PcOk(c, s, u, Pc(s, u)) && u != t && TouchesOnly(s, s', t, l)
    requires Pc(s, u).Replaying? || Pc(s, u).Admitted? || Pc(s, u).Collecting? || Pc(s, u).Dropped?
    ensures PcOk(c, s', u, Pc(s, u))
  {
    var pc := Pc(s, u);
    assert SlotOk(At(s, pc.l));
    if pc.l == l {
      SlotFacts(At(s, l), At(s', l), t);
    } else {
      assert At(s', pc.l) == At(s, pc.l);
    }
  }

  /** A step on one lease leaves every other thread's assertion true. */
  lemma OthersKeep(c: Config, s: State, s': State, t: Thread, l: LeaseId, u: Thread)
    requires StoresOk(s) && PcOk(c, s, u, Pc(s, u)) && u != t && TouchesOnly(s, s', t, l)
    ensures PcOk(c, s', u, Pc(s, u))
  {
    var pc := Pc(s, u);
    if pc.In? {
      OthersInKeep(c, s, s', t, l, u);
    } else if pc.Opening? {
      OthersOpeningKeep(c, s, s', t, l, u);
    } else if pc.Between? {
      SnapKeeps(s, s', t, l, pc.snap);
    } else if pc.Replaying? || pc.Admitted? || pc.Collecting? || pc.Dropped? {
      OthersOutsideKeep(c, s, s', t, l, u);
    }
  }

  /** So a step keeps the invariant when it touches one lease and keeps the mover's own assertion. */
  lemma StepKeeps(c: Config, s: State, s': State, t: Thread, l: LeaseId)
    requires Inv(c, s) && TouchesOnly(s, s', t, l) && PcOk(c, s', t, Pc(s', t))
    ensures Inv(c, s')
  {
    SlotKeeps(At(s, l), At(s', l), t);
    forall u | u != t ensures PcOk(c, s', u, Pc(s', u)) {
      OthersKeep(c, s, s', t, l, u);
    }
  }

  predicate Opens(move: Move) {
    move.OpenForPass? || move.OpenForSweep? || move.OpenForWork? || move.OpenForRelease?
  }

  function MoveTarget(pc: PC, move: Move): LeaseId {
    if Opens(move) then move.l
    else if pc.In? || pc.Opening? || pc.Collecting? || pc.Dropped? then pc.l
    else 0
  }

  function ArmTarget(pc: PC, step: ArmStep): LeaseId {
    if step.Mint? then step.l else if pc.In? then pc.l else 0
  }

  lemma OpenedTouches(s: State, t: Thread, l: LeaseId, job: Job, stage: Stage)
    ensures TouchesOnly(s, Opened(s, t, l, job, stage), t, l)
    ensures At(Opened(s, t, l, job, stage), l) == At(s, l).(used := true)
  {
  }

  lemma FlockTouches(c: Config, s: State, t: Thread)
    requires PcOk(c, s, t, Pc(s, t)) && Pc(s, t).Opening?
    requires Pc(s, t).file == File(s, Pc(s, t).l) ==> Pc(s, t).l !in s.locks
    ensures TouchesOnly(s, FlockNext(s, t), t, Pc(s, t).l)
  {
    var pc, s' := Pc(s, t), FlockNext(s, t);
    assert At(s', pc.l) == if pc.file == File(s, pc.l) then At(s, pc.l).(holder := Some(t)) else At(s, pc.l);
  }

  lemma UnlockTouches(s: State, s': State, t: Thread, l: LeaseId)
    requires forall u | u != t :: Pc(s', u) == Pc(s, u)
    requires s'.records == s.records && s'.rows == s.rows && s'.born == s.born
    requires s'.used == s.used && s'.pruned == s.pruned && s'.unlinks == s.unlinks
    requires s'.locks == s.locks || s'.locks == Unlock(s, t, l)
    ensures TouchesOnly(s, s', t, l)
  {
    assert At(s', l) == At(s, l) || (At(s, l).HeldBy(t) && At(s', l) == At(s, l).(holder := None));
  }

  lemma LeaveTouches(s: State, t: Thread, dropTree: bool)
    ensures TouchesOnly(s, LeaveNext(s, t, dropTree), t, MoveTarget(Pc(s, t), Leave(dropTree)))
  {
    UnlockTouches(s, LeaveNext(s, t, dropTree), t, MoveTarget(Pc(s, t), Leave(dropTree)));
  }

  lemma DropRecordTouches(c: Config, s: State, t: Thread)
    requires MoveEnabled(c, s, t, DropRecord) && PcOk(c, s, t, Pc(s, t))
    ensures TouchesOnly(s, MoveNext(c, s, t, DropRecord), t, Pc(s, t).l)
  {
    var l, s' := Pc(s, t).l, MoveNext(c, s, t, DropRecord);
    assert At(s', l) == At(s, l).(record := None, pruned := true);
  }

  lemma DropLockTouches(c: Config, s: State, t: Thread)
    requires MoveEnabled(c, s, t, DropLock) && PcOk(c, s, t, Pc(s, t))
    ensures TouchesOnly(s, MoveNext(c, s, t, DropLock), t, Pc(s, t).l)
  {
    var l, s' := Pc(s, t).l, MoveNext(c, s, t, DropLock);
    assert At(s', l) == At(s, l).(holder := None, file := File(s, l) + 1);
  }

  lemma TombstoneTouches(c: Config, s: State, t: Thread)
    requires MoveEnabled(c, s, t, Tombstone) && PcOk(c, s, t, Pc(s, t))
    ensures TouchesOnly(s, MoveNext(c, s, t, Tombstone), t, Pc(s, t).l)
  {
    var l, s' := Pc(s, t).l, MoveNext(c, s, t, Tombstone);
    assert At(s', l) == At(s, l).(record := Some(Closed(At(s, l).record.value, s.now)));
  }

  lemma RetireTouches(c: Config, s: State, t: Thread)
    requires MoveEnabled(c, s, t, Retire) && PcOk(c, s, t, Pc(s, t))
    ensures TouchesOnly(s, MoveNext(c, s, t, Retire), t, Pc(s, t).l)
  {
    var l, s' := Pc(s, t).l, MoveNext(c, s, t, Retire);
    assert At(s', l) == At(s, l).(row := None);
  }

  /** Moves that change no lease. */
  predicate Aside(move: Move) {
    || move.ReadRows? || move.ReadRecords? || move.EndPass?
    || move.Admit? || move.Load? || move.Serve? || move.FindMissing? || move.Recheck? || move.Reclaim? || move.FindAged?
  }

  lemma MoveAside(c: Config, s: State, t: Thread, move: Move)
    requires MoveEnabled(c, s, t, move) && Aside(move)
    ensures
      var s' := MoveNext(c, s, t, move);
      && (forall u | u != t :: Pc(s', u) == Pc(s, u))
      && s'.records == s.records && s'.rows == s.rows && s'.born == s.born
      && s'.used == s.used && s'.pruned == s.pruned && s'.locks == s.locks && s'.unlinks == s.unlinks
      && s'.results == s.results
  {
  }

  lemma OpenMoveTouches(c: Config, s: State, t: Thread, move: Move)
    requires MoveEnabled(c, s, t, move) && Opens(move)
    ensures TouchesOnly(s, MoveNext(c, s, t, move), t, move.l)
  {
    var s' := MoveNext(c, s, t, move);
    OpenedTouches(s, t, move.l, Pc(s', t).aim, Pc(s', t).entry);
  }

  lemma MoveTouches(c: Config, s: State, t: Thread, move: Move)
    requires MoveEnabled(c, s, t, move) && PcOk(c, s, t, Pc(s, t))
    ensures TouchesOnly(s, MoveNext(c, s, t, move), t, MoveTarget(Pc(s, t), move))
  {
    if Opens(move) {
      OpenMoveTouches(c, s, t, move);
    } else if move.Flock? {
      FlockTouches(c, s, t);
    } else if move.Tombstone? {
      TombstoneTouches(c, s, t);
    } else if move.Retire? {
      RetireTouches(c, s, t);
    } else if move.DropRecord? {
      DropRecordTouches(c, s, t);
    } else if move.DropLock? {
      DropLockTouches(c, s, t);
    } else if move.Leave? {
      LeaveTouches(s, t, move.dropTree);
    } else {
      MoveAside(c, s, t, move);
      UnlockTouches(s, MoveNext(c, s, t, move), t, MoveTarget(Pc(s, t), move));
    }
  }

  /** A thread keeps its own snapshot assertion through its own step. */
  lemma MoveSnap(c: Config, s: State, t: Thread, move: Move, snap: Snapshot)
    requires MoveEnabled(c, s, t, move) && PcOk(c, s, t, Pc(s, t)) && StoresOk(s) && SnapOk(s, snap)
    ensures SnapOk(MoveNext(c, s, t, move), snap)
  {
    MoveTouches(c, s, t, move);
    SnapKeeps(s, MoveNext(c, s, t, move), t, MoveTarget(Pc(s, t), move), snap);
  }

  /** Opening a lock file, for a reason the snapshot gives or without one. */
  lemma OpenOwn(c: Config, s: State, t: Thread, move: Move)
    requires MoveEnabled(c, s, t, move) && PcOk(c, s, t, Pc(s, t)) && StoresOk(s) && Opens(move)
    ensures PcOk(c, MoveNext(c, s, t, move), t, Pc(MoveNext(c, s, t, move), t))
  {
    var pc, s' := Pc(s, t), MoveNext(c, s, t, move);
    var pc' := Pc(s', t);
    OpenedTouches(s, t, move.l, pc'.aim, pc'.entry);
    if move.OpenForPass? {
      SnapKeeps(s, s', t, move.l, pc.snap);
    }
  }

  lemma FlockOwn(c: Config, s: State, t: Thread)
    requires MoveEnabled(c, s, t, Flock) && PcOk(c, s, t, Pc(s, t)) && StoresOk(s)
    ensures PcOk(c, FlockNext(s, t), t, Pc(FlockNext(s, t), t))
  {
    var pc := Pc(s, t);
    FlockTouches(c, s, t);
    assert SlotOk(At(s, pc.l));
    if pc.aim.LanePass? {
      SnapKeeps(s, FlockNext(s, t), t, pc.l, pc.aim.snap);
    }
  }

  lemma PassOwn(c: Config, s: State, t: Thread, move: Move)
    requires MoveEnabled(c, s, t, move) && PcOk(c, s, t, Pc(s, t)) && StoresOk(s)
    requires !Pc(s, t).In? && !Pc(s, t).Opening?
    ensures PcOk(c, MoveNext(c, s, t, move), t, Pc(MoveNext(c, s, t, move), t))
  {
    if Opens(move) {
      OpenOwn(c, s, t, move);
    } else if move.Admit? {
      assert SlotOk(At(s, move.l));
    } else if move.FindAged? || move.DropRecord? {
      CollectOwn(c, s, t, move);
    } else {
      forall l | l in s.records || l in s.rows ensures At(s, l).Born() { assert SlotOk(At(s, l)); }
    }
  }

  lemma CollectOwn(c: Config, s: State, t: Thread, move: Move)
    requires MoveEnabled(c, s, t, move) && PcOk(c, s, t, Pc(s, t)) && StoresOk(s)
    requires move.FindAged? || move.DropRecord?
    ensures PcOk(c, MoveNext(c, s, t, move), t, Pc(MoveNext(c, s, t, move), t))
  {
    if move.FindAged? { assert SlotOk(At(s, move.l)); }
  }

  lemma TombstoneStage(c: Config, s: State, t: Thread)
    requires MoveEnabled(c, s, t, Tombstone)
    requires var pc := Pc(s, t); StageOk(c, At(s, pc.l), t, pc.job, pc.stage) && SlotOk(At(s, pc.l))
    ensures
      var pc, s' := Pc(s, t), MoveNext(c, s, t, Tombstone);
      var pc' := Pc(s', t);
      pc'.In? && pc'.job == pc.job && pc'.l == pc.l && StageOk(c, At(s', pc.l), t, pc.job, pc'.stage)
  {
    var pc, s' := Pc(s, t), MoveNext(c, s, t, Tombstone);
    assert At(s', pc.l) == At(s, pc.l).(record := Some(Closed(At(s, pc.l).record.value, s.now)));
  }

  lemma RetireStage(c: Config, s: State, t: Thread)
    requires MoveEnabled(c, s, t, Retire)
    requires var pc := Pc(s, t); StageOk(c, At(s, pc.l), t, pc.job, pc.stage) && SlotOk(At(s, pc.l))
    ensures
      var pc, s' := Pc(s, t), MoveNext(c, s, t, Retire);
      var pc' := Pc(s', t);
      pc'.In? && pc'.job == pc.job && pc'.l == pc.l && StageOk(c, At(s', pc.l), t, pc.job, pc'.stage)
  {
    var pc, s' := Pc(s, t), MoveNext(c, s, t, Retire);
    assert At(s', pc.l) == At(s, pc.l).(row := None);
  }

  lemma AsideStage(c: Config, s: State, t: Thread, move: Move)
    requires MoveEnabled(c, s, t, move) && Pc(s, t).In? && Aside(move)
    requires var pc := Pc(s, t); StageOk(c, At(s, pc.l), t, pc.job, pc.stage) && SlotOk(At(s, pc.l))
    ensures
      var pc, s' := Pc(s, t), MoveNext(c, s, t, move);
      var pc' := Pc(s', t);
      pc'.In? && pc'.job == pc.job && pc'.l == pc.l && StageOk(c, At(s', pc.l), t, pc.job, pc'.stage)
  {
    MoveAside(c, s, t, move);
    assert At(MoveNext(c, s, t, move), Pc(s, t).l) == At(s, Pc(s, t).l);
  }

  lemma CriticalStage(c: Config, s: State, t: Thread, move: Move)
    requires MoveEnabled(c, s, t, move) && Pc(s, t).In? && !move.Leave?
    requires var pc := Pc(s, t); StageOk(c, At(s, pc.l), t, pc.job, pc.stage) && SlotOk(At(s, pc.l))
    ensures
      var pc, s' := Pc(s, t), MoveNext(c, s, t, move);
      var pc' := Pc(s', t);
      pc'.In? && pc'.job == pc.job && pc'.l == pc.l && StageOk(c, At(s', pc.l), t, pc.job, pc'.stage)
  {
    if move.Tombstone? {
      TombstoneStage(c, s, t);
    } else if move.Retire? {
      RetireStage(c, s, t);
    } else {
      AsideStage(c, s, t, move);
    }
  }

  lemma LeaveOwn(c: Config, s: State, t: Thread, dropTree: bool)
    requires PcOk(c, s, t, Pc(s, t)) && StoresOk(s) && (Pc(s, t).In? || Pc(s, t).Opening?)
    ensures PcOk(c, LeaveNext(s, t, dropTree), t, Pc(LeaveNext(s, t, dropTree), t))
  {
    var pc := Pc(s, t);
    if AfterLeave(pc).Between? {
      LeaveTouches(s, t, dropTree);
      SnapKeeps(s, LeaveNext(s, t, dropTree), t, pc.l, AfterLeave(pc).snap);
    }
  }

  lemma CriticalOwn(c: Config, s: State, t: Thread, move: Move)
    requires MoveEnabled(c, s, t, move) && PcOk(c, s, t, Pc(s, t)) && StoresOk(s)
    requires Pc(s, t).In?
    ensures PcOk(c, MoveNext(c, s, t, move), t, Pc(MoveNext(c, s, t, move), t))
  {
    var pc := Pc(s, t);
    if move.Leave? {
      LeaveOwn(c, s, t, move.dropTree);
    } else {
      assert SlotOk(At(s, pc.l));
      CriticalStage(c, s, t, move);
      if pc.job.LanePass? {
        MoveSnap(c, s, t, move, pc.job.snap);
      }
    }
  }

  lemma MoveKeepsInv(c: Config, s: State, t: Thread, move: Move)
    requires Inv(c, s) && MoveEnabled(c, s, t, move)
    ensures Inv(c, MoveNext(c, s, t, move))
  {
    MoveTouches(c, s, t, move);
    if Pc(s, t).In? {
      CriticalOwn(c, s, t, move);
    } else if Pc(s, t).Opening? {
      if move.Flock? { FlockOwn(c, s, t); } else { LeaveOwn(c, s, t, move.dropTree); }
    } else {
      PassOwn(c, s, t, move);
    }
    StepKeeps(c, s, MoveNext(c, s, t, move), t, MoveTarget(Pc(s, t), move));
  }

  lemma CreateTouches(c: Config, s: State)
    requires ArmEnabled(c, s, CreateRecord) && PcOk(c, s, Inbox, Pc(s, Inbox))
    ensures TouchesOnly(s, ArmNext(c, s, CreateRecord), Inbox, Pc(s, Inbox).l)
  {
    var pc, s' := Pc(s, Inbox), ArmNext(c, s, CreateRecord);
    var rec := NewRecord(c, s.now, pc.stage.req);
    assert At(s', pc.l) == At(s, pc.l).(record := Some(rec), origin := Some(Some(rec.request)));
  }

  lemma RowTouches(c: Config, s: State, outcome: RowOutcome)
    requires ArmEnabled(c, s, ArmRow(outcome)) && PcOk(c, s, Inbox, Pc(s, Inbox))
    ensures TouchesOnly(s, ArmNext(c, s, ArmRow(outcome)), Inbox, Pc(s, Inbox).l)
  {
    var l, s' := Pc(s, Inbox).l, ArmNext(c, s, ArmRow(outcome));
    assert At(s', l) == At(s, l).(row := At(s', l).row);
  }

  lemma UndoRowTouches(c: Config, s: State)
    requires ArmEnabled(c, s, UndoRow) && PcOk(c, s, Inbox, Pc(s, Inbox))
    ensures TouchesOnly(s, ArmNext(c, s, UndoRow), Inbox, Pc(s, Inbox).l)
  {
    var l, s' := Pc(s, Inbox).l, ArmNext(c, s, UndoRow);
    assert At(s', l) == At(s, l).(row := None);
  }

  /** Arm steps that change no lease. */
  lemma ArmAside(c: Config, s: State, step: ArmStep)
    requires ArmEnabled(c, s, step) && !step.Mint? && !step.CreateRecord? && !step.ArmRow? && !step.UndoRow?
    ensures
      var s' := ArmNext(c, s, step);
      && (forall u | u != Inbox :: Pc(s', u) == Pc(s, u))
      && s'.records == s.records && s'.rows == s.rows && s'.born == s.born
      && s'.used == s.used && s'.pruned == s.pruned && s'.locks == s.locks && s'.unlinks == s.unlinks
  {
    match step case _ =>
  }

  lemma ArmTouches(c: Config, s: State, step: ArmStep)
    requires ArmEnabled(c, s, step) && PcOk(c, s, Inbox, Pc(s, Inbox))
    ensures TouchesOnly(s, ArmNext(c, s, step), Inbox, ArmTarget(Pc(s, Inbox), step))
  {
    if step.Mint? {
      OpenedTouches(s, Inbox, step.l, Arming, Minted(Pc(s, Inbox).req));
    } else if step.CreateRecord? {
      CreateTouches(c, s);
    } else if step.UndoRow? {
      UndoRowTouches(c, s);
    } else if step.ArmRow? {
      RowTouches(c, s, step.outcome);
    } else {
      ArmAside(c, s, step);
      UnlockTouches(s, ArmNext(c, s, step), Inbox, ArmTarget(Pc(s, Inbox), step));
    }
  }

  lemma MintOwn(c: Config, s: State, l: LeaseId)
    requires ArmEnabled(c, s, Mint(l)) && StoresOk(s)
    ensures var s' := ArmNext(c, s, Mint(l)); PcOk(c, s', Inbox, Pc(s', Inbox))
  {
    assert SlotOk(At(s, l));
    OpenedTouches(s, Inbox, l, Arming, Minted(Pc(s, Inbox).req));
  }

  lemma StageOwn(c: Config, s: State, step: ArmStep)
    requires ArmEnabled(c, s, step) && PcOk(c, s, Inbox, Pc(s, Inbox))
    requires Pc(s, Inbox).In? && SlotOk(At(s, Pc(s, Inbox).l))
    ensures PcOk(c, ArmNext(c, s, step), Inbox, Pc(ArmNext(c, s, step), Inbox))
  {
    match step case _ =>
  }

  lemma FreeOwn(c: Config, s: State, step: ArmStep)
    requires ArmEnabled(c, s, step) && PcOk(c, s, Inbox, Pc(s, Inbox)) && !Pc(s, Inbox).In? && !step.Mint?
    requires step.FindPrior? ==> SlotOk(At(s, step.l))
    ensures PcOk(c, ArmNext(c, s, step), Inbox, Pc(ArmNext(c, s, step), Inbox))
  {
    match step case _ =>
  }

  lemma ArmOwn(c: Config, s: State, step: ArmStep)
    requires ArmEnabled(c, s, step) && PcOk(c, s, Inbox, Pc(s, Inbox)) && StoresOk(s)
    ensures PcOk(c, ArmNext(c, s, step), Inbox, Pc(ArmNext(c, s, step), Inbox))
  {
    if step.Mint? {
      MintOwn(c, s, step.l);
    } else if Pc(s, Inbox).In? {
      assert SlotOk(At(s, Pc(s, Inbox).l));
      StageOwn(c, s, step);
    } else {
      if step.FindPrior? { assert SlotOk(At(s, step.l)); }
      FreeOwn(c, s, step);
    }
  }

  lemma ArmKeepsInv(c: Config, s: State, step: ArmStep)
    requires Inv(c, s) && ArmEnabled(c, s, step)
    ensures Inv(c, ArmNext(c, s, step))
  {
    ArmTouches(c, s, step);
    ArmOwn(c, s, step);
    StepKeeps(c, s, ArmNext(c, s, step), Inbox, ArmTarget(Pc(s, Inbox), step));
  }

  /** A thread other than `u`, to attribute a step of the environment to. */
  function Other(u: Thread): Thread {
    if u.Inbox? then Heartbeat else Inbox
  }

  lemma ForeignRowKeepsInv(c: Config, s: State, l: LeaseId, lane: Lane)
    requires Inv(c, s) && l !in s.used
    ensures Inv(c, Next(c, s, ForeignRow(l, lane)))
  {
    var s' := Next(c, s, ForeignRow(l, lane));
    assert SlotOk(At(s, l));
    assert forall m | m != l :: At(s', m) == At(s, m);
    assert At(s', l) == At(s, l).(row := Some(lane), origin := Some(None), used := true);
    forall u ensures PcOk(c, s', u, Pc(s', u)) {
      OthersKeep(c, s, s', Other(u), l, u);
    }
    SlotKeeps(At(s, l), At(s', l), Inbox);
  }

  /** Steps that only move the clock, the worktrees or the ordinary turns. */
  lemma AsideKeepsInv(c: Config, s: State, s': State)
    requires Inv(c, s) && s'.pcs == s.pcs && forall l :: At(s', l) == At(s, l)
    ensures Inv(c, s')
  {
    forall u ensures PcOk(c, s', u, Pc(s', u)) {
      OthersKeep(c, s, s', Other(u), 0, u);
    }
  }

  lemma CrashKeepsInv(c: Config, s: State)
    requires Inv(c, s)
    ensures Inv(c, Next(c, s, Crash))
  {
    var s' := Next(c, s, Crash);
    forall m ensures SlotOk(At(s', m)) {
      assert SlotOk(At(s, m)) && At(s', m) == At(s, m).(holder := None);
    }
  }

  /** Every step of every thread, and every crash, keeps the invariant. */
  lemma StepKeepsInv(c: Config, s: State, a: Action)
    requires Inv(c, s) && Enabled(c, s, a)
    ensures Inv(c, Next(c, s, a))
  {
    match a
    case By(t, move) => MoveKeepsInv(c, s, t, move);
    case Arm(step) => ArmKeepsInv(c, s, step);
    case BeginTurn(_, _, _) => AsideKeepsInv(c, s, Next(c, s, a));
    case EndTurn(_, _) => AsideKeepsInv(c, s, Next(c, s, a));
    case ForeignRow(l, lane) => ForeignRowKeepsInv(c, s, l, lane);
    case ExpireResult(_) => AsideKeepsInv(c, s, Next(c, s, a));
    case Tick(_) => AsideKeepsInv(c, s, Next(c, s, a));
    case Crash => CrashKeepsInv(c, s);
  }

  // ---------------------------------------------------------------------------
  // Runs
  // ---------------------------------------------------------------------------

  lemma {:induction false} RunKeepsInv(c: Config, states: seq<State>, acts: seq<Action>, i: nat)
    requires IsRun(c, states, acts) && i <= |acts|
    ensures Inv(c, states[i])
  {
    if i > 0 {
      RunKeepsInv(c, states, acts, i - 1);
      assert StepAt(c, states, acts, i - 1);
      StepKeepsInv(c, states[i - 1], acts[i - 1]);
    }
  }

  predicate Destructive(move: Move) {
    move.Reclaim? || move.Tombstone? || move.Retire?
  }

  /** Whatever the interleaving, when a lane pass reclaims, tombstones or retires a lease, that lease
      does not have an armed record with a matching row, and the pass holds its lock or the record
      has been collected. */
  lemma LanePassSparesLiveLeases(c: Config, states: seq<State>, acts: seq<Action>, i: nat, t: Thread, move: Move)
    requires IsRun(c, states, acts) && i < |acts| && acts[i] == By(t, move) && Destructive(move)
    requires Pc(states[i], t).In? && Pc(states[i], t).job.LanePass?
    ensures !Healthy(c, states[i], Pc(states[i], t).l)
    ensures
      var l := Pc(states[i], t).l;
      (l in states[i].locks && states[i].locks[l] == t) || l in states[i].pruned
  {
    RunKeepsInv(c, states, acts, i);
    assert StepAt(c, states, acts, i);
    var s := states[i];
    var pc := Pc(s, t);
    assert PcOk(c, s, t, pc);
    assert SlotOk(At(s, pc.l));
    assert Healthy(c, s, pc.l) <==> At(s, pc.l).Armed() && At(s, pc.l).RowMatches(c, s.records[pc.l]);
  }
}
