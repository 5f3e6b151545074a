/**
  What a replayed ok promises. A lease that stands (record armed, row matching, worktree there and
  its name its own) stands until some thread inside it reclaims or tombstones it, whatever else
  happens; and from any state of the protocol a sweep can do that before the replayed reply.
 */
module LeaseReplays {
  import opened Common
  import opened LeaseProtocol
  import opened LeaseInvariant
  import opened LeaseBooks
  import opened LeaseLocks
  import opened LeasePaths
  import opened LeaseCauses
  import opened LeaseReplies
  import opened LeaseRequests

  /** An arm of another lease has just made a worktree of this name. */
  predicate Rival(pc: PC, l: LeaseId, name: Name) {
    pc.In? && pc.stage.Treed? && pc.l != l && pc.stage.req.name == name
  }

  ghost predicate Stands(c: Config, s: State, l: LeaseId, rec: Record) {
    && rec.phase.Armed? && Lookup(s.records, l) == Some(rec) && Matches(c, s.rows, l, rec)
    && rec.name in s.trees && Free(s, l, rec.name) && !Rival(Pc(s, Inbox), l, rec.name)
  }

  /** A thread inside `l` removes its worktree or tombstones it. */
  predicate Closes(s: State, a: Action, l: LeaseId) {
    && a.By? && Pc(s, a.t).In? && Pc(s, a.t).l == l
    && (a.move == Reclaim(true) || a.move.Tombstone?)
  }

  // ---------------------------------------------------------------------------
  // One step
  // ---------------------------------------------------------------------------

  /** The record of an armed lease changes only when it is tombstoned. */
  lemma MoveRecord(c: Config, s: State, t: Thread, move: Move, l: LeaseId)
    requires MoveEnabled(c, s, t, move) && PcOk(c, s, t, Pc(s, t)) && IsArmed(s.records, l)
    requires !Closes(s, By(t, move), l)
    ensures Lookup(MoveNext(c, s, t, move).records, l) == Lookup(s.records, l)
  {
    match move case _ =>
  }

  lemma MoveRow(c: Config, s: State, t: Thread, move: Move, l: LeaseId)
    requires MoveEnabled(c, s, t, move) && PcOk(c, s, t, Pc(s, t)) && IsArmed(s.records, l) && l in s.rows
    ensures l in MoveNext(c, s, t, move).rows && MoveNext(c, s, t, move).rows[l] == s.rows[l]
  {
    MoveRows(c, s, t, move);
    assert l in s.records && At(s, l).Armed();
  }

  lemma MoveTree(c: Config, s: State, t: Thread, move: Move, l: LeaseId, rec: Record)
    requires Inv(c, s) && MoveEnabled(c, s, t, move) && Stands(c, s, l, rec) && !Closes(s, By(t, move), l)
    ensures rec.name in MoveNext(c, s, t, move).trees
  {
    assert PcOk(c, s, t, Pc(s, t));
    assert At(s, l).Armed() && At(s, l).Born() by { assert SlotOk(At(s, l)); }
    MoveTrees(c, s, t, move, rec.name);
  }

  lemma MoveRival(c: Config, s: State, t: Thread, move: Move, l: LeaseId, name: Name)
    requires MoveEnabled(c, s, t, move)
    ensures Rival(Pc(MoveNext(c, s, t, move), Inbox), l, name) ==> Rival(Pc(s, Inbox), l, name)
  {
    match move case _ =>
  }

  lemma MoveStands(c: Config, s: State, t: Thread, move: Move, l: LeaseId, rec: Record)
    requires Inv(c, s) && MoveEnabled(c, s, t, move) && Stands(c, s, l, rec) && !Closes(s, By(t, move), l)
    ensures Stands(c, MoveNext(c, s, t, move), l, rec)
  {
    var s' := MoveNext(c, s, t, move);
    assert PcOk(c, s, t, Pc(s, t));
    assert l in s.records;
    MoveRecord(c, s, t, move, l);
    MoveRow(c, s, t, move, l);
    MoveTree(c, s, t, move, l, rec);
    MoveRival(c, s, t, move, l, rec.name);
    MoveShrinks(c, s, t, move);
    MoveTurns(c, s, t, move);
    FreeKeeps(s, s', l, rec.name);
  }

  /** The closing moves do close it. */
  lemma ClosingStops(c: Config, s: State, t: Thread, move: Move, l: LeaseId, rec: Record)
    requires Inv(c, s) && MoveEnabled(c, s, t, move) && Stands(c, s, l, rec) && Closes(s, By(t, move), l)
    ensures !Stands(c, MoveNext(c, s, t, move), l, rec)
  {
    assert PcOk(c, s, t, Pc(s, t));
    assert At(s, l).record == Some(rec);
  }

  lemma ArmStands(c: Config, s: State, step: ArmStep, l: LeaseId, rec: Record)
    requires Inv(c, s) && ArmEnabled(c, s, step) && Stands(c, s, l, rec)
    ensures Stands(c, ArmNext(c, s, step), l, rec)
  {
    var s' := ArmNext(c, s, step);
    assert l in s.records && PcOk(c, s, Inbox, Pc(s, Inbox));
    ArmLeaves(c, s, step, l, rec);
    ArmRival(c, s, step, l, rec.name);
    FreeOfNew(c, s, step, l, rec.name);
  }

  /** An arm step leaves the record, the row and the worktree of a lease that has them. */
  lemma ArmLeaves(c: Config, s: State, step: ArmStep, l: LeaseId, rec: Record)
    requires ArmEnabled(c, s, step) && PcOk(c, s, Inbox, Pc(s, Inbox))
    requires Lookup(s.records, l) == Some(rec) && Matches(c, s.rows, l, rec) && rec.name in s.trees
    ensures
      var s' := ArmNext(c, s, step);
      Lookup(s'.records, l) == Some(rec) && l in s'.rows && s'.rows[l] == s.rows[l] && rec.name in s'.trees
  {
    match step case _ =>
  }

  lemma ArmRival(c: Config, s: State, step: ArmStep, l: LeaseId, name: Name)
    requires ArmEnabled(c, s, step) && name in s.trees && !Rival(Pc(s, Inbox), l, name)
    ensures !Rival(Pc(ArmNext(c, s, step), Inbox), l, name)
  {
    match step case _ =>
  }

  lemma FreeOfNew(c: Config, s: State, step: ArmStep, l: LeaseId, name: Name)
    requires ArmEnabled(c, s, step) && Free(s, l, name) && !Rival(Pc(s, Inbox), l, name) && l in s.records
    ensures Free(ArmNext(c, s, step), l, name)
  {
    match step case _ =>
  }

  /** A step keeps a standing lease standing exactly when it does not close it. */
  lemma StandsStep(c: Config, s: State, a: Action, l: LeaseId, rec: Record)
    requires Inv(c, s) && Enabled(c, s, a) && Stands(c, s, l, rec)
    ensures Stands(c, Next(c, s, a), l, rec) <==> !Closes(s, a, l)
  {
    if a.By? {
      if Closes(s, a, l) {
        ClosingStops(c, s, a.t, a.move, l, rec);
      } else {
        MoveStands(c, s, a.t, a.move, l, rec);
      }
    } else if a.Arm? {
      ArmStands(c, s, a.step, l, rec);
    } else {
      assert SlotOk(At(s, l));
      EnvStands(c, s, a, l, rec);
    }
  }

  lemma EnvStands(c: Config, s: State, a: Action, l: LeaseId, rec: Record)
    requires Enabled(c, s, a) && !a.By? && !a.Arm? && Stands(c, s, l, rec) && SlotOk(At(s, l))
    ensures Stands(c, Next(c, s, a), l, rec)
  {
    assert l in s.records && At(s, l).used;
    match a case _ =>
  }

  lemma {:induction false} StandsUntilClosed(
    c: Config, states: seq<State>, acts: seq<Action>, i: nat, j: nat, l: LeaseId, rec: Record)
    requires IsRun(c, states, acts) && i <= j <= |acts| && Stands(c, states[i], l, rec)
    requires forall k | i <= k < j :: !Closes(states[k], acts[k], l)
    ensures Stands(c, states[j], l, rec)
    decreases j
  {
    if i < j {
      StandsUntilClosed(c, states, acts, i, j - 1, l, rec);
      RunKeepsInv(c, states, acts, j - 1);
      assert StepAt(c, states, acts, j - 1);
      StandsStep(c, states[j - 1], acts[j - 1], l, rec);
    }
  }

  // ---------------------------------------------------------------------------
  // A reply replayed from the lease record
  // ---------------------------------------------------------------------------

  /** A replay that has seen the worktree has seen the row. */
  predicate RowFirst(pc: PC) {
    pc.Replaying? && pc.treeSeen ==> pc.rowSeen
  }

  lemma ArmSeesTree(c: Config, s: State, step: ArmStep)
    requires ArmEnabled(c, s, step) && Pc(ArmNext(c, s, step), Inbox).Replaying?
    requires Pc(ArmNext(c, s, step), Inbox).treeSeen && Pc(s, Inbox) != Pc(ArmNext(c, s, step), Inbox)
    requires RowFirst(Pc(s, Inbox))
    ensures step.ReplayTree?
  {
    match step case _ =>
  }

  lemma ArmRowFirst(c: Config, s: State, step: ArmStep)
    requires ArmEnabled(c, s, step) && RowFirst(Pc(s, Inbox))
    ensures RowFirst(Pc(ArmNext(c, s, step), Inbox))
  {
    match step case _ =>
  }

  lemma RowFirstStep(c: Config, s: State, a: Action)
    requires Enabled(c, s, a) && RowFirst(Pc(s, Inbox))
    ensures RowFirst(Pc(Next(c, s, a), Inbox))
  {
    if !Moves(a, Inbox) {
      OthersStay(c, s, a, Inbox);
    } else {
      match a
      case By(t, move) => MoveReplays(c, s, move);
      case Arm(step) => ArmRowFirst(c, s, step);
      case Crash =>
    }
  }

  lemma {:induction false} RunRowFirst(c: Config, states: seq<State>, acts: seq<Action>, i: nat)
    requires IsRun(c, states, acts) && i <= |acts|
    ensures RowFirst(Pc(states[i], Inbox))
  {
    if i > 0 {
      RunRowFirst(c, states, acts, i - 1);
      assert StepAt(c, states, acts, i - 1);
      RowFirstStep(c, states[i - 1], acts[i - 1]);
    }
  }

  lemma SeenBack(c: Config, s: State, a: Action)
    requires Enabled(c, s, a) && RowFirst(Pc(s, Inbox)) && Pc(Next(c, s, a), Inbox).Replaying?
    requires Pc(Next(c, s, a), Inbox).treeSeen && Pc(s, Inbox) != Pc(Next(c, s, a), Inbox)
    ensures a == Arm(ReplayTree)
  {
    if !Moves(a, Inbox) {
      OthersStay(c, s, a, Inbox);
    } else {
      match a
      case By(t, move) => MoveReplays(c, s, move);
      case Arm(step) => ArmSeesTree(c, s, step);
      case Crash =>
    }
  }

  /** The moment a replay saw the worktree; it stays where it is until its reply. */
  lemma {:induction false} SawTree(c: Config, states: seq<State>, acts: seq<Action>, j: nat) returns (i: nat)
    requires IsRun(c, states, acts) && j <= |acts| && Pc(states[j], Inbox).Replaying? && Pc(states[j], Inbox).treeSeen
    ensures i < j && acts[i] == Arm(ReplayTree)
    ensures forall m | i < m <= j :: Pc(states[m], Inbox) == Pc(states[j], Inbox)
  {
    assert j > 0 by { assert states[0].pcs == map[]; }
    assert StepAt(c, states, acts, j - 1);
    if Pc(states[j - 1], Inbox) == Pc(states[j], Inbox) {
      i := SawTree(c, states, acts, j - 1);
    } else {
      RunRowFirst(c, states, acts, j - 1);
      SeenBack(c, states[j - 1], acts[j - 1]);
      i := j - 1;
    }
  }

  /**
    A replay that replies ok at step `j` saw the worktree at some step `i` before, after the row, and has
    been waiting to reply since. If the record is armed at the reply its row matches. If it was armed when
    the worktree was seen, the name was its own, and nobody closed the lease in between, then record, row
    and worktree are all there at the reply.
   */
  lemma RecordReplayIsTrue(c: Config, states: seq<State>, acts: seq<Action>, j: nat) returns (i: nat)
    requires IsRun(c, states, acts) && j < |acts| && acts[j] == Arm(ReplayOk)
    ensures i < j && acts[i] == Arm(ReplayTree) && forall m | i < m <= j :: Pc(states[m], Inbox) == Pc(states[j], Inbox)
    ensures
      var pc := Pc(states[j], Inbox);
      && pc.Replaying?
      && (IsArmed(states[j].records, pc.l) ==> Healthy(c, states[j], pc.l))
      && (IsArmed(states[i].records, pc.l) && Free(states[i], pc.l, pc.rec.name)
          && (forall k | i < k < j :: !Closes(states[k], acts[k], pc.l))
          ==> Stands(c, states[j], pc.l, pc.rec))
  {
    assert StepAt(c, states, acts, j);
    RunKeepsInv(c, states, acts, j);
    ReplayedRow(c, states[j]);
    i := SawTree(c, states, acts, j);
    SeenTreeStands(c, states, acts, i, j);
  }

  lemma SeenTreeStands(c: Config, states: seq<State>, acts: seq<Action>, i: nat, j: nat)
    requires IsRun(c, states, acts) && i < j < |acts| && acts[i] == Arm(ReplayTree)
    ensures
      var s, pc := states[i], Pc(states[i], Inbox);
      && pc.Replaying? && Pc(states[i + 1], Inbox) == pc.(treeSeen := true)
      && (IsArmed(s.records, pc.l) && Free(s, pc.l, pc.rec.name)
          && (forall k | i < k < j :: !Closes(states[k], acts[k], pc.l))
          ==> Stands(c, states[j], pc.l, pc.rec))
  {
    assert StepAt(c, states, acts, i);
    RunKeepsInv(c, states, acts, i);
    var s, pc := states[i], Pc(states[i], Inbox);
    ReplaySees(c, s, states[i + 1]);
    if IsArmed(s.records, pc.l) && Free(s, pc.l, pc.rec.name)
       && forall k | i < k < j :: !Closes(states[k], acts[k], pc.l) {
      ReplaySeesAll(c, s);
      StandsStep(c, s, acts[i], pc.l, pc.rec);
      StandsUntilClosed(c, states, acts, i + 1, j, pc.l, pc.rec);
    }
  }

  lemma ReplaySees(c: Config, s: State, s': State)
    requires ArmEnabled(c, s, ReplayTree) && s' == ArmNext(c, s, ReplayTree)
    ensures Pc(s, Inbox).Replaying? && Pc(s', Inbox) == Pc(s, Inbox).(treeSeen := true)
  {
  }

  lemma ReplayedRow(c: Config, s: State)
    requires Inv(c, s) && Pc(s, Inbox).Replaying? && Pc(s, Inbox).rowSeen
    ensures IsArmed(s.records, Pc(s, Inbox).l) ==> Healthy(c, s, Pc(s, Inbox).l)
  {
    assert PcOk(c, s, Inbox, Pc(s, Inbox));
  }

  lemma ReplaySeesAll(c: Config, s: State)
    requires Inv(c, s) && ArmEnabled(c, s, ReplayTree)
    requires IsArmed(s.records, Pc(s, Inbox).l) && Free(s, Pc(s, Inbox).l, Pc(s, Inbox).rec.name)
    ensures Stands(c, s, Pc(s, Inbox).l, Pc(s, Inbox).rec)
  {
    assert PcOk(c, s, Inbox, Pc(s, Inbox));
    assert At(s, Pc(s, Inbox).l).Armed();
  }

  /** From every state in which a replay is about to reply, a sweep can get in first: the reply is
      then sent with the record tombstoned and the worktree gone. */
  lemma RecordReplayCanBeStale(c: Config, s: State) returns (acts: seq<Action>, s': State)
    requires Inv(c, s) && LocksOk(s) && ArmEnabled(c, s, ReplayOk) && IsArmed(s.records, Pc(s, Inbox).l)
    ensures After(c, s, acts) == Some(s') && AllWait(acts) && ArmEnabled(c, s', ReplayOk)
    ensures
      var pc := Pc(s', Inbox);
      pc == Pc(s, Inbox) && !IsArmed(s'.records, pc.l) && pc.rec.name !in s'.trees
  {
    var pc := Pc(s, Inbox);
    assert PcOk(c, s, Inbox, pc) && At(s, pc.l).Armed();
    acts, s' := SweepCloses(c, s, pc.l);
    ReplyStaysEnabled(c, s, s');
  }

  lemma ReplyStaysEnabled(c: Config, s: State, s': State)
    requires ArmEnabled(c, s, ReplayOk) && Pc(s', Inbox) == Pc(s, Inbox)
    ensures ArmEnabled(c, s', ReplayOk)
  {
  }

  // ---------------------------------------------------------------------------
  // A reply replayed from the durable result
  // ---------------------------------------------------------------------------

  /** A durable ok names the lease armed for its request; if that lease is still armed its row matches. */
  lemma DurableReplayIsTrue(c: Config, states: seq<State>, acts: seq<Action>, j: nat, id: RequestId)
    requires IsRun(c, states, acts) && j < |acts| && acts[j] == Arm(ReplayDurable(id))
    requires id in states[j].results && states[j].results[id].ArmOk?
    ensures
      var s := states[j];
      var l := s.results[id].l;
      && l in s.born && s.born[l] == Some(id)
      && (IsArmed(s.records, l) ==> Healthy(c, s, l) && s.records[l].request == id)
  {
    RunKeepsInv(c, states, acts, j);
    RunKeepsResults(c, states, acts, j);
    var s := states[j];
    var l := s.results[id].l;
    assert ResultOk(c, s, id, l) && SlotOk(At(s, l));
  }

  /**
    A fresh arm stored its ok at step `i`, its worktree made under a free name. As long as nobody
    has closed the lease since, record, row and worktree are all there when the ok is replayed.
   */
  lemma DurableReplayStands(c: Config, states: seq<State>, acts: seq<Action>, i: nat, j: nat)
    requires IsRun(c, states, acts) && i < j < |acts| && acts[i] == Arm(StoreOk) && TreeHeld(states[i])
    requires Pc(states[i], Inbox).In? ==> forall k | i < k < j :: !Closes(states[k], acts[k], Pc(states[i], Inbox).l)
    ensures
      var pc := Pc(states[i], Inbox);
      pc.In? && pc.stage.Rowed? && Stands(c, states[j], pc.l, pc.stage.rec)
  {
    assert StepAt(c, states, acts, i);
    var s, pc := states[i], Pc(states[i], Inbox);
    RunKeepsInv(c, states, acts, i);
    RowedStands(c, s);
    StandsStep(c, s, acts[i], pc.l, pc.stage.rec);
    StandsUntilClosed(c, states, acts, i + 1, j, pc.l, pc.stage.rec);
  }

  lemma RowedStands(c: Config, s: State)
    requires Inv(c, s) && ArmEnabled(c, s, StoreOk) && TreeHeld(s)
    ensures Pc(s, Inbox).In? && Pc(s, Inbox).stage.Rowed? && Stands(c, s, Pc(s, Inbox).l, Pc(s, Inbox).stage.rec)
  {
    assert PcOk(c, s, Inbox, Pc(s, Inbox));
    assert At(s, Pc(s, Inbox).l).Armed();
  }

  /** From every state with a durable ok for an armed lease, a sweep can close that lease while the
      ok stays to be replayed. */
  lemma DurableReplayCanBeStale(c: Config, s: State, id: RequestId) returns (acts: seq<Action>, s': State)
    requires Inv(c, s) && LocksOk(s) && ArmEnabled(c, s, ReplayDurable(id))
    requires s.results[id].ArmOk? && IsArmed(s.records, s.results[id].l)
    ensures After(c, s, acts) == Some(s') && AllWait(acts) && ArmEnabled(c, s', ReplayDurable(id))
    ensures
      var l := s.results[id].l;
      s'.results[id] == ArmOk(l) && !IsArmed(s'.records, l) && s.records[l].name !in s'.trees
  {
    acts, s' := SweepCloses(c, s, s.results[id].l);
  }
}
