/**
  What an ok arm reply promises, and exactly when.

  A fresh arm replies ok with its record armed and its row matching, whatever the other threads do.
  Its worktree can be gone by then if and only if, when the worktree was created, the name was that
  of another armed lease or of a running ordinary turn. A replayed reply is true as long as nobody
  has closed the lease in between, and a sweep can always do that.
 */
module LeaseReplies {
  import opened Common
  import opened LeaseProtocol
  import opened LeaseInvariant
  import opened LeaseBooks
  import opened LeaseLocks
  import opened LeasePaths

  /** No armed lease but `l`, and no running ordinary turn, has the worktree name. */
  ghost predicate Free(s: State, l: LeaseId, name: Name) {
    && (forall m | IsArmed(s.records, m) && m != l :: s.records[m].name != name)
    && (forall k | k in s.turns :: s.turns[k] != name)
  }

  /** The lease and worktree name of an arm between the creation of its worktree and its reply. */
  function ArmTree(pc: PC): Option<(LeaseId, Name)> {
    if !pc.In? || !pc.job.Arming? then None
    else
      match pc.stage
      case Treed(req) => Some((pc.l, req.name))
      case Open(rec) => Some((pc.l, rec.name))
      case Rowed(rec) => Some((pc.l, rec.name))
      case Stored(rec) => Some((pc.l, rec.name))
      case _ => None
  }

  ghost predicate TreeHeld(s: State) {
    var a := ArmTree(Pc(s, Inbox));
    a.Some? ==> a.value.1 in s.trees && Free(s, a.value.0, a.value.1)
  }

  // ---------------------------------------------------------------------------
  // A free name keeps its worktree
  // ---------------------------------------------------------------------------

  /** Armed records and ordinary turns only go away, but for the record of `l`. */
  lemma FreeKeeps(s: State, s': State, l: LeaseId, name: Name)
    requires Free(s, l, name)
    requires forall m | IsArmed(s'.records, m) && m != l ::
      IsArmed(s.records, m) && s'.records[m].name == s.records[m].name
    requires forall k | k in s'.turns :: k in s.turns && s'.turns[k] == s.turns[k]
    ensures Free(s', l, name)
  {
  }

  lemma MoveArmTree(c: Config, s: State, t: Thread, move: Move)
    requires MoveEnabled(c, s, t, move)
    ensures
      var a, a' := ArmTree(Pc(s, Inbox)), ArmTree(Pc(MoveNext(c, s, t, move), Inbox));
      a' == None || (a' == a && (t.Inbox? ==> !move.Leave? && !move.Reclaim?))
  {
    match move case _ =>
  }

  /** A move takes a worktree away only by reclaiming it, or by giving up an arm that just made it. */
  lemma MoveTrees(c: Config, s: State, t: Thread, move: Move, name: Name)
    requires MoveEnabled(c, s, t, move) && name in s.trees
    ensures var pc := Pc(s, t);
      || name in MoveNext(c, s, t, move).trees
      || (move == Reclaim(true) && pc.In? && MayReclaim(s, pc.job, pc.stage, true) && pc.stage.rec.name == name)
      || (move == Leave(true) && pc.In? && pc.stage.Treed? && pc.stage.req.name == name)
  {
    match move case _ =>
  }

  lemma MoveKeepsTrees(c: Config, s: State, t: Thread, move: Move)
    requires MoveEnabled(c, s, t, move) && !move.Reclaim? && !move.Leave?
    ensures MoveNext(c, s, t, move).trees == s.trees
  {
    match move case _ =>
  }

  /** Another thread removes no worktree of the name an arm holds. */
  lemma MoveSparesTree(c: Config, s: State, t: Thread, move: Move)
    requires Inv(c, s) && MoveEnabled(c, s, t, move) && !t.Inbox? && TreeHeld(s) && ArmTree(Pc(s, Inbox)).Some?
    ensures ArmTree(Pc(s, Inbox)).value.1 in MoveNext(c, s, t, move).trees
  {
    assert PcOk(c, s, t, Pc(s, t)) && PcOk(c, s, Inbox, Pc(s, Inbox));
    MoveTrees(c, s, t, move, ArmTree(Pc(s, Inbox)).value.1);
  }

  lemma MoveKeepsTree(c: Config, s: State, t: Thread, move: Move)
    requires Inv(c, s) && TreeHeld(s) && MoveEnabled(c, s, t, move)
    ensures TreeHeld(MoveNext(c, s, t, move))
  {
    var s' := MoveNext(c, s, t, move);
    MoveArmTree(c, s, t, move);
    var a := ArmTree(Pc(s, Inbox));
    if ArmTree(Pc(s', Inbox)).Some? {
      assert PcOk(c, s, t, Pc(s, t));
      MoveShrinks(c, s, t, move);
      MoveTurns(c, s, t, move);
      FreeKeeps(s, s', a.value.0, a.value.1);
      if t.Inbox? {
        MoveKeepsTrees(c, s, t, move);
      } else {
        MoveSparesTree(c, s, t, move);
      }
    }
  }

  lemma MoveTurns(c: Config, s: State, t: Thread, move: Move)
    requires MoveEnabled(c, s, t, move)
    ensures MoveNext(c, s, t, move).turns == s.turns
  {
    match move case _ =>
  }

  lemma ArmArmTree(c: Config, s: State, step: ArmStep)
    requires ArmEnabled(c, s, step) && !step.CreateTree?
    ensures
      var s' := ArmNext(c, s, step);
      var a, a' := ArmTree(Pc(s, Inbox)), ArmTree(Pc(s', Inbox));
      (a' == None || a' == a) && s'.trees == s.trees && s'.turns == s.turns
  {
    match step case _ =>
  }

  lemma ArmKeepsTree(c: Config, s: State, step: ArmStep)
    requires TreeHeld(s) && ArmEnabled(c, s, step)
    requires step.CreateTree? ==> Free(s, Pc(s, Inbox).l, Pc(s, Inbox).stage.req.name)
    ensures TreeHeld(ArmNext(c, s, step))
  {
    var s' := ArmNext(c, s, step);
    if step.CreateTree? {
      FreeKeeps(s, s', Pc(s, Inbox).l, Pc(s, Inbox).stage.req.name);
    } else {
      ArmArmTree(c, s, step);
      var a := ArmTree(Pc(s, Inbox));
      if ArmTree(Pc(s', Inbox)).Some? {
        ArmOthersShrink(c, s, step);
        FreeKeeps(s, s', a.value.0, a.value.1);
      }
    }
  }

  lemma ArmOthersShrink(c: Config, s: State, step: ArmStep)
    requires ArmEnabled(c, s, step)
    ensures
      var s', pc := ArmNext(c, s, step), Pc(s, Inbox);
      s'.records == s.records || (pc.In? && s'.records == s.records[pc.l := s'.records[pc.l]])
  {
    match step case _ =>
  }

  /** The creation of a worktree whose name is taken. */
  ghost predicate CreatesTaken(s: State, a: Action) {
    var pc := Pc(s, Inbox);
    a == Arm(CreateTree) && pc.In? && pc.stage.Minted? && !Free(s, pc.l, pc.stage.req.name)
  }

  lemma StepKeepsTree(c: Config, s: State, a: Action)
    requires Inv(c, s) && TreeHeld(s) && Enabled(c, s, a) && !CreatesTaken(s, a)
    ensures TreeHeld(Next(c, s, a))
  {
    if a.By? {
      MoveKeepsTree(c, s, a.t, a.move);
    } else if a.Arm? {
      ArmKeepsTree(c, s, a.step);
    }
  }

  // ---------------------------------------------------------------------------
  // The fresh reply
  // ---------------------------------------------------------------------------

  lemma StepArmTree(c: Config, s: State, a: Action)
    requires Enabled(c, s, a) && a != Arm(CreateTree)
    ensures ArmTree(Pc(Next(c, s, a), Inbox)) == None || ArmTree(Pc(Next(c, s, a), Inbox)) == ArmTree(Pc(s, Inbox))
  {
    if a.By? {
      MoveArmTree(c, s, a.t, a.move);
    } else if a.Arm? {
      ArmArmTree(c, s, a.step);
    }
  }

  ghost predicate NoCreateBetween(acts: seq<Action>, i: nat, j: nat) {
    forall k | i < k < j && k < |acts| :: acts[k] != Arm(CreateTree)
  }

  /** The step that created the worktree of the arm in progress. */
  lemma {:induction false} LastCreate(c: Config, states: seq<State>, acts: seq<Action>, j: nat) returns (i: nat)
    requires IsRun(c, states, acts) && j <= |acts| && ArmTree(Pc(states[j], Inbox)).Some?
    ensures i < j && acts[i] == Arm(CreateTree) && NoCreateBetween(acts, i, j)
    ensures ArmTree(Pc(states[i + 1], Inbox)) == ArmTree(Pc(states[j], Inbox))
  {
    assert j > 0 by { assert states[0].pcs == map[]; }
    var s, a := states[j - 1], acts[j - 1];
    assert StepAt(c, states, acts, j - 1);
    if a == Arm(CreateTree) {
      i := j - 1;
    } else {
      StepArmTree(c, s, a);
      i := LastCreate(c, states, acts, j - 1);
    }
  }

  lemma BeforeCreate(c: Config, s: State)
    requires ArmEnabled(c, s, CreateTree)
    ensures TreeHeld(s)
  {
  }

  lemma TreeHeldStep(c: Config, s: State, a: Action, s': State)
    requires Inv(c, s) && Enabled(c, s, a) && s' == Next(c, s, a)
    requires if a == Arm(CreateTree) then !CreatesTaken(s, a) else TreeHeld(s)
    ensures TreeHeld(s')
  {
    if a == Arm(CreateTree) {
      BeforeCreate(c, s);
    }
    StepKeepsTree(c, s, a);
  }

  lemma {:induction false} TreeHeldSince(c: Config, states: seq<State>, acts: seq<Action>, i: nat, j: nat)
    requires IsRun(c, states, acts) && i < j <= |acts| && acts[i] == Arm(CreateTree) && NoCreateBetween(acts, i, j)
    requires !CreatesTaken(states[i], acts[i])
    ensures TreeHeld(states[j])
  {
    RunKeepsInv(c, states, acts, j - 1);
    if j - 1 > i {
      TreeHeldSince(c, states, acts, i, j - 1);
    }
    assert StepAt(c, states, acts, j - 1);
    TreeHeldStep(c, states[j - 1], acts[j - 1], states[j]);
  }

  lemma CreateNames(c: Config, s: State)
    requires ArmEnabled(c, s, CreateTree)
    ensures Pc(s, Inbox).In? && Pc(s, Inbox).stage.Minted?
    ensures Pc(s, Inbox).job.Arming? ==>
      ArmTree(Pc(ArmNext(c, s, CreateTree), Inbox)) == Some((Pc(s, Inbox).l, Pc(s, Inbox).stage.req.name))
  {
  }

  /** A fresh ok reply is sent only while the record is armed and the row matches; and only while the
      worktree exists, if its name was free when it was created. */
  lemma FreshOkReplyIsTrue(c: Config, states: seq<State>, acts: seq<Action>, j: nat) returns (i: nat)
    requires IsRun(c, states, acts) && j < |acts| && acts[j] == Arm(ReplyOk)
    ensures Pc(states[j], Inbox).In? && Healthy(c, states[j], Pc(states[j], Inbox).l)
    ensures i < j && acts[i] == Arm(CreateTree) && NoCreateBetween(acts, i, j)
    ensures
      var l := Pc(states[j], Inbox).l;
      var name := states[j].records[l].name;
      Free(states[i], l, name) ==> name in states[j].trees
  {
    RunKeepsInv(c, states, acts, j);
    assert StepAt(c, states, acts, j);
    assert PcOk(c, states[j], Inbox, Pc(states[j], Inbox));
    i := LastCreate(c, states, acts, j);
    assert StepAt(c, states, acts, i);
    CreateNames(c, states[i]);
    if !CreatesTaken(states[i], acts[i]) {
      TreeHeldSince(c, states, acts, i, j);
    }
  }

  // ---------------------------------------------------------------------------
  // A taken name can lose it
  // ---------------------------------------------------------------------------

  /** A continuation that creates the worktree, gets as far as the ok reply, and finds the worktree gone. */
  ghost predicate LosesTree(c: Config, s: State, acts: seq<Action>) {
    && acts != [] && acts[0] == Arm(CreateTree) && NoCreateBetween(acts, 0, |acts|)
    && After(c, s, acts).Some?
    && var s' := After(c, s, acts).value;
       ArmEnabled(c, s', ReplyOk) && Pc(s', Inbox).stage.rec.name !in s'.trees
  }

  lemma {:induction false} AfterKeepsTree(c: Config, s: State, acts: seq<Action>)
    requires Inv(c, s) && LocksOk(s) && ArmEnabled(c, s, CreateTree) && !CreatesTaken(s, Arm(CreateTree))
    requires acts != [] && acts[0] == Arm(CreateTree) && NoCreateBetween(acts, 0, |acts|) && After(c, s, acts).Some?
    ensures TreeHeld(After(c, s, acts).value)
  {
    var n := |acts| - 1;
    AfterKeepsInv(c, s, acts[..n]);
    if n == 0 {
      assert acts[..n] == [];
    } else {
      AfterKeepsTree(c, s, acts[..n]);
    }
    StepKeepsTree(c, After(c, s, acts[..n]).value, acts[n]);
  }

  /** An arm's own steps from its worktree to its stored result. */
  lemma ArmCreates(c: Config, s: State) returns (acts: seq<Action>, s': State)
    requires Inv(c, s) && ArmEnabled(c, s, CreateTree)
    ensures acts == [Arm(CreateTree), Arm(CreateRecord)] && After(c, s, acts) == Some(s')
    ensures
      var l, req := Pc(s, Inbox).l, Pc(s, Inbox).stage.req;
      && Pc(s', Inbox) == In(Arming, l, Open(NewRecord(c, s.now, req))) && l !in s'.rows
      && s'.records == s.records[l := NewRecord(c, s.now, req)] && l !in s.records && s'.turns == s.turns
  {
    var pc := Pc(s, Inbox);
    assert PcOk(c, s, Inbox, pc);
    acts, s' := Do(c, s, [], s, Arm(CreateTree));
    assert Pc(s', Inbox) == In(Arming, pc.l, Treed(pc.stage.req)) && s'.records == s.records;
    acts, s' := Do(c, s, acts, s', Arm(CreateRecord));
  }

  lemma RowIsWritten(c: Config, s: State)
    requires Pc(s, Inbox).In? && Pc(s, Inbox).job.Arming? && Pc(s, Inbox).stage.Open? && Pc(s, Inbox).l !in s.rows
    requires c.boundLane == c.lane && c.ownConsumer
    ensures ArmEnabled(c, s, ArmRow(RowWritten))
    ensures
      var pc, s' := Pc(s, Inbox), ArmNext(c, s, ArmRow(RowWritten));
      Pc(s', Inbox) == pc.(stage := Rowed(pc.stage.rec)) && s'.records == s.records && s'.turns == s.turns
  {
  }

  lemma OkIsStored(c: Config, s: State)
    requires Pc(s, Inbox).In? && Pc(s, Inbox).stage.Rowed?
    ensures ArmEnabled(c, s, StoreOk)
    ensures
      var pc, s' := Pc(s, Inbox), ArmNext(c, s, StoreOk);
      Pc(s', Inbox) == pc.(stage := Stored(pc.stage.rec)) && s'.records == s.records && s'.turns == s.turns
  {
  }

  lemma ArmStores(c: Config, s: State) returns (acts: seq<Action>, s': State)
    requires Pc(s, Inbox).In? && Pc(s, Inbox).job.Arming? && Pc(s, Inbox).stage.Open? && Pc(s, Inbox).l !in s.rows
    requires c.boundLane == c.lane && c.ownConsumer
    ensures acts == [Arm(ArmRow(RowWritten)), Arm(StoreOk)] && After(c, s, acts) == Some(s')
    ensures Pc(s', Inbox) == Pc(s, Inbox).(stage := Stored(Pc(s, Inbox).stage.rec))
    ensures s'.records == s.records && s'.turns == s.turns
  {
    RowIsWritten(c, s);
    var mid;
    acts, mid := Do(c, s, [], s, Arm(ArmRow(RowWritten)));
    OkIsStored(c, mid);
    acts, s' := Do(c, s, acts, mid, Arm(StoreOk));
  }

  lemma ArmWalks(c: Config, s: State) returns (acts: seq<Action>, s': State)
    requires Inv(c, s) && LocksOk(s) && ArmEnabled(c, s, CreateTree) && c.boundLane == c.lane && c.ownConsumer
    ensures acts != [] && acts[0] == Arm(CreateTree) && NoCreateBetween(acts, 0, |acts|)
    ensures After(c, s, acts) == Some(s') && Inv(c, s') && LocksOk(s')
    ensures
      var l, req := Pc(s, Inbox).l, Pc(s, Inbox).stage.req;
      && Pc(s', Inbox) == In(Arming, l, Stored(NewRecord(c, s.now, req)))
      && s'.records == s.records[l := NewRecord(c, s.now, req)] && l !in s.records && s'.turns == s.turns
  {
    var a, mid := ArmCreates(c, s);
    var b;
    b, s' := ArmStores(c, mid);
    AfterJoin(c, s, a, mid, b);
    acts := a + b;
    AfterKeepsInv(c, s, acts);
  }

  /** Another lease of the same name, or a turn that holds it, can take the worktree away. */
  lemma TakenIsTaken(c: Config, s: State, l: LeaseId, name: Name) returns (acts: seq<Action>, s': State)
    requires Inv(c, s) && LocksOk(s) && Inside(s, Inbox, l) && !Free(s, l, name)
    ensures After(c, s, acts) == Some(s') && AllWait(acts) && Pc(s', Inbox) == Pc(s, Inbox) && name !in s'.trees
  {
    if m :| IsArmed(s.records, m) && m != l && s.records[m].name == name {
      acts, s' := SweepCloses(c, s, m);
    } else {
      var k :| k in s.turns && s.turns[k] == name;
      acts, s' := Do(c, s, [], s, EndTurn(k, true));
    }
  }

  lemma TakenCanLose(c: Config, s: State) returns (acts: seq<Action>)
    requires Inv(c, s) && LocksOk(s) && ArmEnabled(c, s, CreateTree) && c.boundLane == c.lane && c.ownConsumer
    requires CreatesTaken(s, Arm(CreateTree))
    ensures LosesTree(c, s, acts)
  {
    var l, name := Pc(s, Inbox).l, Pc(s, Inbox).stage.req.name;
    var a, mid := ArmWalks(c, s);
    TakenStays(s, mid, l, name);
    var b, last := TakenIsTaken(c, mid, l, name);
    AfterJoin(c, s, a, mid, b);
    acts := a + b;
    WaitingCreatesNothing(a, b);
    LossShows(c, s, acts, last);
  }

  lemma WaitingCreatesNothing(a: seq<Action>, b: seq<Action>)
    requires NoCreateBetween(a, 0, |a|) && AllWait(b) && a != []
    ensures NoCreateBetween(a + b, 0, |a + b|)
  {
    forall k | 0 < k < |a + b| ensures (a + b)[k] != Arm(CreateTree) {
      assert k >= |a| ==> Waits(b[k - |a|]);
    }
  }

  lemma LossShows(c: Config, s: State, acts: seq<Action>, s': State)
    requires acts != [] && acts[0] == Arm(CreateTree) && NoCreateBetween(acts, 0, |acts|)
    requires After(c, s, acts) == Some(s')
    requires Pc(s', Inbox).In? && Pc(s', Inbox).stage.Stored? && Pc(s', Inbox).stage.rec.name !in s'.trees
    ensures LosesTree(c, s, acts)
  {
  }

  lemma FreeNeverLoses(c: Config, s: State, acts: seq<Action>)
    requires Inv(c, s) && LocksOk(s) && ArmEnabled(c, s, CreateTree) && !CreatesTaken(s, Arm(CreateTree))
    ensures !LosesTree(c, s, acts)
  {
    if LosesTree(c, s, acts) {
      AfterKeepsTree(c, s, acts);
      AfterKeepsInv(c, s, acts);
      StoredHoldsTree(c, After(c, s, acts).value);
    }
  }

  lemma StoredHoldsTree(c: Config, s: State)
    requires Inv(c, s) && TreeHeld(s) && ArmEnabled(c, s, ReplyOk)
    ensures Pc(s, Inbox).stage.rec.name in s.trees
  {
    assert PcOk(c, s, Inbox, Pc(s, Inbox));
  }

  lemma TakenStays(s: State, s': State, l: LeaseId, name: Name)
    requires !Free(s, l, name) && l !in s.records && s'.turns == s.turns
    requires l in s'.records && s'.records == s.records[l := s'.records[l]]
    ensures !Free(s', l, name)
  {
    if m :| IsArmed(s.records, m) && m != l && s.records[m].name == name {
      assert IsArmed(s'.records, m);
    }
  }

  /** On a seat whose arms can succeed, creating a worktree can end in an ok reply without it if and
      only if another armed lease or a running ordinary turn has the name at that moment. */
  lemma SafeIffFree(c: Config, s: State)
    requires Inv(c, s) && LocksOk(s) && ArmEnabled(c, s, CreateTree) && c.boundLane == c.lane && c.ownConsumer
    ensures Free(s, Pc(s, Inbox).l, Pc(s, Inbox).stage.req.name) <==> !exists acts :: LosesTree(c, s, acts)
  {
    if CreatesTaken(s, Arm(CreateTree)) {
      var acts := TakenCanLose(c, s);
    } else {
      forall acts ensures !LosesTree(c, s, acts) {
        FreeNeverLoses(c, s, acts);
      }
    }
  }
}
