/**
  On whose behalf, and why, each store changes. Over every run: which visit of which thread closes a
  lease, retires a row, removes a worktree or collects a record, what that visit had read by then, and
  which request an ok reply answers. Causes are told from the stores and from the actions taken.
 */
module LeaseCauses {
  import opened Common
  import opened LeaseProtocol
  import opened LeaseInvariant
  import opened LeaseBooks
  import opened LeaseLocks

  /** The thread is inside the lease or has opened its lock file. */
  predicate Visiting(pc: PC, l: LeaseId) {
    (pc.In? || pc.Opening?) && pc.l == l
  }

  function JobOf(pc: PC): Job
    requires pc.In? || pc.Opening?
  {
    if pc.In? then pc.job else pc.aim
  }

  /** The action that begins a visit of `t` to `l` for the given job. */
  predicate Begins(a: Action, t: Thread, l: LeaseId, job: Job) {
    match job
    case LanePass(_) => a.By? && a.t == t && a.move.OpenForPass? && a.move.l == l
    case Sweep => a == By(t, OpenForSweep(l))
    case Arming => t.Inbox? && a == Arm(Mint(l))
    case Releasing(sender) => a == By(t, OpenForRelease(l, sender))
    case Working(sender) => a == By(t, OpenForWork(l, sender))
  }

  /** Ever since action `j` thread `t` has been visiting `l`. */
  ghost predicate VisitSince(states: seq<State>, t: Thread, l: LeaseId, j: nat, i: nat) {
    j < i < |states| && forall m | j < m <= i :: Visiting(Pc(states[m], t), l)
  }

  predicate HasTree(s: State, name: Name) {
    name in s.trees
  }

  /** The row was not written as asked. */
  predicate RowFails(a: Action) {
    a.Arm? && a.step.ArmRow? && !a.step.outcome.RowWritten?
  }

  /** A worker's validation: not expired, worktree there, row matching. */
  predicate Good(c: Config, s: State, l: LeaseId, rec: Record) {
    s.now < rec.expires && rec.name in s.trees && Matches(c, s.rows, l, rec)
  }

  /** The lease's own sender asked for its release, and its worktree was there when the request was checked. */
  ghost predicate OwnerReleases(
    states: seq<State>, acts: seq<Action>, j: nat, i: nat, t: Thread, l: LeaseId, rec: Record) {
    && j < i <= |acts| < |states| && acts[j] == By(t, OpenForRelease(l, rec.sender))
    && exists k | j < k < i :: HasTree(states[k], rec.name)
  }

  /** A sweep, or the end of a worker's turn for the lease's own sender, finds the lease expired. */
  ghost predicate FindsExpired(
    states: seq<State>, acts: seq<Action>, j: nat, i: nat, t: Thread, l: LeaseId, rec: Record) {
    && j < i <= |acts| < |states| && acts[j].By? && acts[j].t == t
    && (acts[j].move == OpenForSweep(l) || acts[j].move == OpenForWork(l, rec.sender))
    && rec.expires <= states[i].now
  }

  /** A sweep finds the worktree missing. */
  ghost predicate FindsMissing(
    states: seq<State>, acts: seq<Action>, j: nat, i: nat, t: Thread, l: LeaseId, rec: Record) {
    && j < i <= |acts| < |states| && acts[j] == By(t, OpenForSweep(l))
    && exists k | j < k < i :: !HasTree(states[k], rec.name)
  }

  /** A worker serves a good lease to the lease's own sender. */
  ghost predicate Serves(
    c: Config, states: seq<State>, acts: seq<Action>, j: nat, i: nat, t: Thread, l: LeaseId, rec: Record) {
    && j < i <= |acts| < |states| && acts[j] == By(t, OpenForWork(l, rec.sender))
    && exists k | j < k < i :: Good(c, states[k], l, rec)
  }

  /** A lane pass finds no matching row. */
  ghost predicate FindsNoRow(
    c: Config, states: seq<State>, acts: seq<Action>, j: nat, i: nat, t: Thread, l: LeaseId, rec: Record) {
    && j < i <= |acts| < |states| && acts[j].By? && acts[j].t == t && acts[j].move.OpenForPass? && acts[j].move.l == l
    && !Matches(c, states[i].rows, l, rec)
  }

  /** The arm that minted the lease could not write its row. */
  ghost predicate Compensates(acts: seq<Action>, j: nat, i: nat, t: Thread, l: LeaseId) {
    && j < i <= |acts| && t == Inbox && acts[j] == Arm(Mint(l))
    && exists k | j < k < i :: RowFails(acts[k])
  }

  /** Why a visit other than a lane pass may remove the worktree of an armed lease. */
  ghost predicate MayReclaimFor(
    states: seq<State>, acts: seq<Action>, j: nat, i: nat, t: Thread, l: LeaseId, rec: Record) {
    || OwnerReleases(states, acts, j, i, t, l, rec)
    || FindsExpired(states, acts, j, i, t, l, rec)
    || Compensates(acts, j, i, t, l)
  }

  /** Why it may tombstone one. */
  ghost predicate MayCloseFor(
    c: Config, states: seq<State>, acts: seq<Action>, j: nat, i: nat, t: Thread, l: LeaseId, rec: Record) {
    || MayReclaimFor(states, acts, j, i, t, l, rec)
    || FindsMissing(states, acts, j, i, t, l, rec)
    || Serves(c, states, acts, j, i, t, l, rec)
  }

  // ---------------------------------------------------------------------------
  // What a visit knows at each of its stages
  // ---------------------------------------------------------------------------

  /** What the visit that began at `j` has found by moment `i`. */
  ghost predicate Found(
    c: Config, states: seq<State>, acts: seq<Action>, j: nat, i: nat, t: Thread, l: LeaseId, job: Job, stage: Stage) {
    match stage
    case Open(rec) =>
      && (job.Releasing? ==> OwnerReleases(states, acts, j, i, t, l, rec))
      && (job.Working? ==> FindsExpired(states, acts, j, i, t, l, rec))
    case Serving(rec) => Serves(c, states, acts, j, i, t, l, rec)
    case Undo(_) => Compensates(acts, j, i, t, l)
    case Removed(rec, live) =>
      && (job.LanePass? || MayCloseFor(c, states, acts, j, i, t, l, rec))
      && (live ==> job.LanePass? || job.Releasing?)
    case Shut(live) => live ==> job.LanePass? || job.Releasing?
    case _ => true
  }

  ghost predicate FoundBy(c: Config, states: seq<State>, acts: seq<Action>, j: nat, i: nat, t: Thread, l: LeaseId)
    requires i < |states|
  {
    var pc := Pc(states[i], t);
    pc.In? ==> Found(c, states, acts, j, i, t, l, pc.job, pc.stage)
  }

  lemma MoveKeepsClock(c: Config, s: State, t: Thread, move: Move)
    requires MoveEnabled(c, s, t, move)
    ensures MoveNext(c, s, t, move).now == s.now
  {
    match move case _ =>
  }

  lemma ArmKeepsClock(c: Config, s: State, step: ArmStep)
    requires ArmEnabled(c, s, step)
    ensures ArmNext(c, s, step).now == s.now
  {
    match step case _ =>
  }

  lemma ClockRuns(c: Config, s: State, a: Action)
    requires Enabled(c, s, a)
    ensures s.now <= Next(c, s, a).now
  {
    if a.By? {
      MoveKeepsClock(c, s, a.t, a.move);
    } else if a.Arm? {
      ArmKeepsClock(c, s, a.step);
    }
  }

  /** What was found stays found: the clock does not go back, and what was read was read. */
  lemma FoundStays(
    c: Config, states: seq<State>, acts: seq<Action>, j: nat, i: nat, t: Thread, l: LeaseId, job: Job, stage: Stage)
    requires i < |acts| && |states| == |acts| + 1 && Found(c, states, acts, j, i, t, l, job, stage)
    requires states[i].now <= states[i + 1].now
    ensures Found(c, states, acts, j, i + 1, t, l, job, stage)
  {
  }

  /** The threads an action does not move. */
  predicate Moves(a: Action, t: Thread) {
    (a.By? && a.t == t) || (a.Arm? && t.Inbox?) || a.Crash?
  }

  lemma CrashIdles(c: Config, s: State, t: Thread)
    ensures Pc(Next(c, s, Crash), t).Idle?
  {
  }

  lemma OthersStay(c: Config, s: State, a: Action, t: Thread)
    requires Enabled(c, s, a) && !Moves(a, t)
    ensures Pc(Next(c, s, a), t) == Pc(s, t)
  {
    if a.By? {
      MoveOnlyMoves(c, s, a.t, a.move, t);
    } else if a.Arm? {
      ArmOnlyInbox(c, s, a.step, t);
    }
  }

  lemma ArmOnlyInbox(c: Config, s: State, step: ArmStep, t: Thread)
    requires ArmEnabled(c, s, step) && !t.Inbox?
    ensures Pc(ArmNext(c, s, step), t) == Pc(s, t)
  {
    match step case _ =>
  }

  /** A move either begins a visit or goes on with the one there is. */
  lemma MoveVisits(c: Config, s: State, t: Thread, move: Move, l: LeaseId)
    requires MoveEnabled(c, s, t, move) && Visiting(Pc(MoveNext(c, s, t, move), t), l)
    ensures
      var pc, pc' := Pc(s, t), Pc(MoveNext(c, s, t, move), t);
      || (pc'.Opening? && Begins(By(t, move), t, l, pc'.aim))
      || (Visiting(pc, l) && JobOf(pc') == JobOf(pc))
  {
    match move case _ =>
  }

  lemma ArmVisits(c: Config, s: State, step: ArmStep, l: LeaseId)
    requires ArmEnabled(c, s, step) && Visiting(Pc(ArmNext(c, s, step), Inbox), l)
    ensures
      var pc, pc' := Pc(s, Inbox), Pc(ArmNext(c, s, step), Inbox);
      || (pc'.Opening? && Begins(Arm(step), Inbox, l, pc'.aim))
      || (Visiting(pc, l) && JobOf(pc') == JobOf(pc))
  {
    match step case _ =>
  }

  /** What a move adds to what its visit has found. */
  lemma MoveFinds(
    c: Config, states: seq<State>, acts: seq<Action>, j: nat, i: nat, t: Thread, l: LeaseId, move: Move)
    requires j < i < |acts| && |states| == |acts| + 1 && acts[i] == By(t, move)
    requires MoveEnabled(c, states[i], t, move) && states[i + 1] == MoveNext(c, states[i], t, move)
    requires Visiting(Pc(states[i], t), l) && Begins(acts[j], t, l, JobOf(Pc(states[i], t)))
    requires PcOk(c, states[i], t, Pc(states[i], t))
    requires FoundBy(c, states, acts, j, i, t, l) && Visiting(Pc(states[i + 1], t), l)
    ensures FoundBy(c, states, acts, j, i + 1, t, l)
  {
    var pc := Pc(states[i], t);
    MoveKeepsClock(c, states[i], t, move);
    if pc.In? {
      FoundStays(c, states, acts, j, i, t, l, pc.job, pc.stage);
    }
    match move case _ =>
  }

  lemma ArmFinds(c: Config, states: seq<State>, acts: seq<Action>, j: nat, i: nat, l: LeaseId, step: ArmStep)
    requires j < i < |acts| && |states| == |acts| + 1 && acts[i] == Arm(step)
    requires ArmEnabled(c, states[i], step) && states[i + 1] == ArmNext(c, states[i], step)
    requires Visiting(Pc(states[i], Inbox), l) && Begins(acts[j], Inbox, l, JobOf(Pc(states[i], Inbox)))
    requires PcOk(c, states[i], Inbox, Pc(states[i], Inbox))
    requires FoundBy(c, states, acts, j, i, Inbox, l) && Visiting(Pc(states[i + 1], Inbox), l)
    ensures FoundBy(c, states, acts, j, i + 1, Inbox, l)
  {
    var pc := Pc(states[i], Inbox);
    ArmKeepsClock(c, states[i], step);
    if pc.In? {
      FoundStays(c, states, acts, j, i, Inbox, l, pc.job, pc.stage);
      match step case _ =>
    }
  }

  /** The step from moment `i` either begins a visit or carries the one there is on to moment `i + 1`. */
  lemma VisitStep(c: Config, states: seq<State>, acts: seq<Action>, i: nat, t: Thread, l: LeaseId)
    requires IsRun(c, states, acts) && i < |acts| && Visiting(Pc(states[i + 1], t), l)
    ensures
      var pc, pc' := Pc(states[i], t), Pc(states[i + 1], t);
      || (pc'.Opening? && Begins(acts[i], t, l, pc'.aim))
      || (Visiting(pc, l) && JobOf(pc') == JobOf(pc))
  {
    assert StepAt(c, states, acts, i);
    var s, a := states[i], acts[i];
    if !Moves(a, t) {
      OthersStay(c, s, a, t);
    } else if a.By? {
      MoveVisits(c, s, t, a.move, l);
    } else if a.Arm? {
      ArmVisits(c, s, a.step, l);
    }
  }

  lemma FindStep(c: Config, states: seq<State>, acts: seq<Action>, j: nat, i: nat, t: Thread, l: LeaseId)
    requires IsRun(c, states, acts) && j < i < |acts|
    requires Visiting(Pc(states[i], t), l) && Begins(acts[j], t, l, JobOf(Pc(states[i], t)))
    requires FoundBy(c, states, acts, j, i, t, l) && Visiting(Pc(states[i + 1], t), l)
    ensures FoundBy(c, states, acts, j, i + 1, t, l)
  {
    assert StepAt(c, states, acts, i);
    var s, a := states[i], acts[i];
    if !Moves(a, t) {
      OthersStay(c, s, a, t);
      ClockRuns(c, s, a);
      if Pc(s, t).In? {
        FoundStays(c, states, acts, j, i, t, l, Pc(s, t).job, Pc(s, t).stage);
      }
    } else if a.By? {
      RunKeepsInv(c, states, acts, i);
      assert PcOk(c, s, t, Pc(s, t));
      MoveFinds(c, states, acts, j, i, t, l, a.move);
    } else if a.Arm? {
      RunKeepsInv(c, states, acts, i);
      assert PcOk(c, s, Inbox, Pc(s, Inbox));
      ArmFinds(c, states, acts, j, i, l, a.step);
    }
  }

  /** The action that began a visit, and what the visit has found since. */
  lemma {:induction false} VisitOf(c: Config, states: seq<State>, acts: seq<Action>, i: nat, t: Thread, l: LeaseId)
    returns (j: nat)
    requires IsRun(c, states, acts) && i <= |acts| && Visiting(Pc(states[i], t), l)
    ensures VisitSince(states, t, l, j, i) && Begins(acts[j], t, l, JobOf(Pc(states[i], t)))
    ensures FoundBy(c, states, acts, j, i, t, l)
  {
    assert i > 0 by { assert states[0].pcs == map[]; }
    VisitStep(c, states, acts, i - 1, t, l);
    if Pc(states[i], t).Opening? && Begins(acts[i - 1], t, l, Pc(states[i], t).aim) {
      j := i - 1;
    } else {
      j := VisitOf(c, states, acts, i - 1, t, l);
      FindStep(c, states, acts, j, i - 1, t, l);
    }
  }

  // ---------------------------------------------------------------------------
  // Closing a lease
  // ---------------------------------------------------------------------------

  lemma MoveCloses(c: Config, s: State, t: Thread, move: Move, l: LeaseId)
    requires Inv(c, s) && MoveEnabled(c, s, t, move) && IsArmed(s.records, l)
    requires !IsArmed(MoveNext(c, s, t, move).records, l)
    ensures move.Tombstone? && Pc(s, t).In? && Pc(s, t).l == l
    ensures Lookup(MoveNext(c, s, t, move).records, l) == Some(s.records[l].(phase := Tombstoned(s.now)))
    ensures Pc(s, t).stage.Removed? || Pc(s, t).stage.Serving?
    ensures Pc(s, t).stage.rec == s.records[l]
    ensures Pc(s, t).job.LanePass? ==> Pc(s, t).stage.Removed? && !Matches(c, s.rows, l, s.records[l])
  {
    assert PcOk(c, s, t, Pc(s, t)) && At(s, l).Armed();
    match move case _ =>
  }

  lemma ArmKeepsArmed(c: Config, s: State, step: ArmStep, l: LeaseId)
    requires ArmEnabled(c, s, step) && IsArmed(s.records, l)
    ensures IsArmed(ArmNext(c, s, step).records, l)
  {
    match step case _ =>
  }

  lemma OnlyMovesClose(c: Config, s: State, a: Action, l: LeaseId)
    requires Enabled(c, s, a) && IsArmed(s.records, l) && !IsArmed(Next(c, s, a).records, l)
    ensures a.By?
  {
    if a.Arm? {
      ArmKeepsArmed(c, s, a.step, l);
    }
  }

  /**
    When a lease goes from armed to not armed, in any run, the record is tombstoned then and there by
    a thread that has been visiting the lease since action `j`, and that visit is one of these: a
    release its own sender asked for, the worktree being there; a sweep, or the end of a worker's turn,
    after its expiry; a sweep that found its worktree missing; a worker that served it, found good, to
    its own sender; a lane pass, while its row does not match; the compensation of its own arm.
   */
  lemma ClosedForCause(c: Config, states: seq<State>, acts: seq<Action>, i: nat, l: LeaseId) returns (t: Thread, j: nat)
    requires IsRun(c, states, acts) && i < |acts|
    requires IsArmed(states[i].records, l) && !IsArmed(states[i + 1].records, l)
    ensures acts[i].By? && acts[i].t == t && VisitSince(states, t, l, j, i)
    ensures l in states[i + 1].records
    ensures states[i + 1].records[l] == states[i].records[l].(phase := Tombstoned(states[i].now))
    ensures MayCloseFor(c, states, acts, j, i, t, l, states[i].records[l])
         || FindsNoRow(c, states, acts, j, i, t, l, states[i].records[l])
  {
    RunKeepsInv(c, states, acts, i);
    assert StepAt(c, states, acts, i);
    OnlyMovesClose(c, states[i], acts[i], l);
    t := acts[i].t;
    MoveCloses(c, states[i], t, acts[i].move, l);
    j := VisitOf(c, states, acts, i, t, l);
  }

  // ---------------------------------------------------------------------------
  // Removing a worktree
  // ---------------------------------------------------------------------------

  /** An arm that made the worktree gives up before it published a record. */
  ghost predicate ArmGivesUp(states: seq<State>, acts: seq<Action>, j: nat, i: nat, l: LeaseId) {
    && j < i < |acts| && i < |states| && acts[j] == Arm(Mint(l))
    && acts[i] == By(Inbox, Leave(true)) && l !in states[i].records
  }

  lemma MoveUntrees(c: Config, s: State, t: Thread, move: Move, name: Name)
    requires Inv(c, s) && MoveEnabled(c, s, t, move) && name in s.trees && name !in MoveNext(c, s, t, move).trees
    ensures Pc(s, t).In?
    ensures
      var pc := Pc(s, t);
      || (&& move == Reclaim(true) && IsArmed(s.records, pc.l) && s.records[pc.l].name == name
          && (pc.stage.Open? || pc.stage.Serving? || pc.stage.Undo? || pc.stage.Doomed?)
          && pc.stage.rec == s.records[pc.l]
          && (pc.job.LanePass? ==> !Matches(c, s.rows, pc.l, s.records[pc.l]))
          && (pc.job.Arming? ==> pc.stage.Undo?)
          && (pc.job.Sweep? || pc.job.Working? ==> s.records[pc.l].expires <= s.now))
      || (move == Leave(true) && t == Inbox && pc.job.Arming? && pc.l !in s.records)
  {
    assert PcOk(c, s, t, Pc(s, t));
    match move case _ =>
  }

  lemma ArmKeepsTrees(c: Config, s: State, step: ArmStep)
    requires ArmEnabled(c, s, step)
    ensures s.trees <= ArmNext(c, s, step).trees
  {
    match step case _ =>
  }

  /**
    When a worktree goes, in any run, an ordinary turn that made it ends; or a thread has been visiting,
    since action `j`, an armed lease of that name that it may reclaim, and its own sender released it, it
    has expired, its arm is compensated, or its row does not match; or an arm gives up the worktree it
    made before it published a record.
   */
  lemma TreeGoesForCause(c: Config, states: seq<State>, acts: seq<Action>, i: nat, name: Name)
    returns (t: Thread, j: nat, l: LeaseId)
    requires IsRun(c, states, acts) && i < |acts| && name in states[i].trees && name !in states[i + 1].trees
    ensures
      || (acts[i].EndTurn? && acts[i].k in states[i].turns && states[i].turns[acts[i].k] == name)
      || (&& acts[i] == By(t, Reclaim(true)) && VisitSince(states, t, l, j, i)
          && IsArmed(states[i].records, l) && states[i].records[l].name == name
          && (|| MayReclaimFor(states, acts, j, i, t, l, states[i].records[l])
              || FindsNoRow(c, states, acts, j, i, t, l, states[i].records[l])))
      || (VisitSince(states, Inbox, l, j, i) && ArmGivesUp(states, acts, j, i, l))
  {
    RunKeepsInv(c, states, acts, i);
    assert StepAt(c, states, acts, i);
    var s, a := states[i], acts[i];
    t, j, l := Inbox, 0, 0;
    if a.By? {
      MoveUntrees(c, s, a.t, a.move, name);
      t, l := a.t, Pc(s, a.t).l;
      j := VisitOf(c, states, acts, i, t, l);
    } else if a.Arm? {
      ArmKeepsTrees(c, s, a.step);
    }
  }

  // ---------------------------------------------------------------------------
  // Retiring a row
  // ---------------------------------------------------------------------------

  lemma MoveUnrows(c: Config, s: State, t: Thread, move: Move, l: LeaseId)
    requires Inv(c, s) && MoveEnabled(c, s, t, move) && l in s.rows && l !in MoveNext(c, s, t, move).rows
    ensures Pc(s, t).In? && Pc(s, t).l == l && !IsArmed(s.records, l)
    ensures Pc(s, t).job.LanePass? || Pc(s, t).stage == Shut(true)
  {
    MoveRows(c, s, t, move);
    assert PcOk(c, s, t, Pc(s, t)) && SlotOk(At(s, l));
    assert At(s, l).Armed() <==> IsArmed(s.records, l);
  }

  lemma ArmUnrows(c: Config, s: State, step: ArmStep, l: LeaseId)
    requires Inv(c, s) && ArmEnabled(c, s, step) && l in s.rows && l !in ArmNext(c, s, step).rows
    ensures Pc(s, Inbox).In? && Pc(s, Inbox).l == l && Pc(s, Inbox).stage.Undo?
    ensures IsArmed(s.records, l) && !Matches(c, s.rows, l, s.records[l])
  {
    assert PcOk(c, s, Inbox, Pc(s, Inbox));
    match step case _ =>
  }

  /**
    When a row goes, in any run, either its lease is not armed and the thread has been visiting it for
    a lane pass or for a release; or the arm that minted the lease takes back a row that does not match.
   */
  lemma RowGoesForCause(c: Config, states: seq<State>, acts: seq<Action>, i: nat, l: LeaseId) returns (t: Thread, j: nat)
    requires IsRun(c, states, acts) && i < |acts| && l in states[i].rows && l !in states[i + 1].rows
    ensures VisitSince(states, t, l, j, i)
    ensures
      || (&& !IsArmed(states[i].records, l) && acts[j].By? && acts[j].t == t
          && (acts[j].move.OpenForPass? || acts[j].move.OpenForRelease?) && acts[j].move.l == l)
      || (&& IsArmed(states[i].records, l) && !Matches(c, states[i].rows, l, states[i].records[l])
          && Compensates(acts, j, i, t, l))
  {
    RunKeepsInv(c, states, acts, i);
    assert StepAt(c, states, acts, i);
    var s, a := states[i], acts[i];
    if a.By? {
      t := a.t;
      MoveUnrows(c, s, t, a.move, l);
    } else {
      t := Inbox;
      ArmUnrows(c, s, a.step, l);
    }
    j := VisitOf(c, states, acts, i, t, l);
  }

  // ---------------------------------------------------------------------------
  // Collecting a record
  // ---------------------------------------------------------------------------

  /** A tombstone stays as it is until it is collected, and nothing takes its place. */
  lemma TombstoneStays(c: Config, s: State, a: Action, l: LeaseId)
    requires Inv(c, s) && Enabled(c, s, a) && l in s.records && s.records[l].phase.Tombstoned?
    ensures
      || Lookup(Next(c, s, a).records, l) == Some(s.records[l])
      || (a.By? && a.move.DropRecord? && l !in Next(c, s, a).records)
  {
    if a.By? {
      ClosesArmed(c, s, a.t);
      MoveLeavesTombstone(c, s, a.t, a.move, l);
    } else if a.Arm? {
      ArmLeavesTombstone(c, s, a.step, l);
    }
  }

  lemma ClosesArmed(c: Config, s: State, t: Thread)
    requires Inv(c, s)
    ensures MoveEnabled(c, s, t, Tombstone) ==> IsArmed(s.records, Pc(s, t).l)
  {
    assert PcOk(c, s, t, Pc(s, t));
  }

  lemma MoveLeavesTombstone(c: Config, s: State, t: Thread, move: Move, l: LeaseId)
    requires MoveEnabled(c, s, t, move) && l in s.records && s.records[l].phase.Tombstoned?
    requires move.Tombstone? ==> IsArmed(s.records, Pc(s, t).l)
    ensures
      || Lookup(MoveNext(c, s, t, move).records, l) == Some(s.records[l])
      || (move.DropRecord? && l !in MoveNext(c, s, t, move).records)
  {
    match move case _ =>
  }

  lemma ArmLeavesTombstone(c: Config, s: State, step: ArmStep, l: LeaseId)
    requires ArmEnabled(c, s, step) && l in s.records
    ensures Lookup(ArmNext(c, s, step).records, l) == Some(s.records[l])
  {
    match step case _ =>
  }

  /** A record that is gone stays gone. */
  lemma GoneStays(c: Config, s: State, a: Action, l: LeaseId)
    requires Inv(c, s) && Enabled(c, s, a) && l in s.born && l !in s.records
    ensures l !in Next(c, s, a).records
  {
    if a == Arm(CreateRecord) {
      assert PcOk(c, s, Inbox, Pc(s, Inbox)) && At(s, l).Born();
    } else {
      OnlyCreateGrows(c, s, a);
    }
  }

  ghost predicate Aged(c: Config, s: State, l: LeaseId) {
    l in s.records && s.records[l].phase.Tombstoned? && s.records[l].phase.at + c.keepFor <= s.now
  }

  /** A collecting thread has a tombstone of the required age, or another collector was first. */
  ghost predicate CollectsAged(c: Config, s: State, t: Thread) {
    Pc(s, t).Collecting? ==> !t.Worker? && (Pc(s, t).l in s.records ==> Aged(c, s, Pc(s, t).l))
  }

  lemma AgedStays(c: Config, s: State, a: Action, l: LeaseId)
    requires Inv(c, s) && Enabled(c, s, a) && At(s, l).Collectable() && (l in s.records ==> Aged(c, s, l))
    ensures l in Next(c, s, a).records ==> Aged(c, Next(c, s, a), l)
  {
    ClockRuns(c, s, a);
    if l in s.records {
      TombstoneStays(c, s, a, l);
    } else {
      GoneStays(c, s, a, l);
    }
  }

  lemma MoveCollects(c: Config, s: State, t: Thread, move: Move)
    requires MoveEnabled(c, s, t, move) && Pc(MoveNext(c, s, t, move), t).Collecting?
    ensures !t.Worker? && Aged(c, MoveNext(c, s, t, move), Pc(MoveNext(c, s, t, move), t).l)
  {
    match move case _ =>
  }

  lemma ArmDoesNotCollect(c: Config, s: State, step: ArmStep)
    requires ArmEnabled(c, s, step)
    ensures Pc(ArmNext(c, s, step), Inbox).Collecting? ==> ArmNext(c, s, step).records == s.records
    ensures Pc(ArmNext(c, s, step), Inbox).Collecting? ==> Pc(ArmNext(c, s, step), Inbox) == Pc(s, Inbox)
    ensures ArmNext(c, s, step).now == s.now
  {
    match step case _ =>
  }

  lemma CollectStep(c: Config, s: State, a: Action, t: Thread)
    requires Inv(c, s) && Enabled(c, s, a) && CollectsAged(c, s, t)
    ensures CollectsAged(c, Next(c, s, a), t)
  {
    if !Moves(a, t) {
      OthersStay(c, s, a, t);
      if Pc(s, t).Collecting? {
        assert PcOk(c, s, t, Pc(s, t));
        AgedStays(c, s, a, Pc(s, t).l);
      }
    } else if a.By? {
      if Pc(Next(c, s, a), t).Collecting? {
        MoveCollects(c, s, t, a.move);
      }
    } else if a.Arm? {
      ArmDoesNotCollect(c, s, a.step);
    }
  }

  lemma {:induction false} RunCollectsAged(c: Config, states: seq<State>, acts: seq<Action>, i: nat, t: Thread)
    requires IsRun(c, states, acts) && i <= |acts|
    ensures CollectsAged(c, states[i], t)
  {
    if i > 0 {
      RunCollectsAged(c, states, acts, i - 1, t);
      RunKeepsInv(c, states, acts, i - 1);
      assert StepAt(c, states, acts, i - 1);
      CollectStep(c, states[i - 1], acts[i - 1], t);
    }
  }

  lemma OnlyCollectionDrops(c: Config, s: State, a: Action, l: LeaseId)
    requires Enabled(c, s, a) && l in s.records && l !in Next(c, s, a).records
    ensures a.By? && a.move.DropRecord? && Pc(s, a.t) == Collecting(l)
  {
    if a.By? {
      MoveDrops(c, s, a.t, a.move, l);
    } else if a.Arm? {
      ArmLeavesTombstone(c, s, a.step, l);
    }
  }

  lemma MoveDrops(c: Config, s: State, t: Thread, move: Move, l: LeaseId)
    requires MoveEnabled(c, s, t, move) && l in s.records && l !in MoveNext(c, s, t, move).records
    ensures move.DropRecord? && Pc(s, t) == Collecting(l)
  {
    match move case _ =>
  }

  /** A record goes, in any run, only once it is a tombstone of the required age, by a reconciling thread. */
  lemma RecordGoesWhenAged(c: Config, states: seq<State>, acts: seq<Action>, i: nat, l: LeaseId)
    requires IsRun(c, states, acts) && i < |acts| && l in states[i].records && l !in states[i + 1].records
    ensures
      var phase := states[i].records[l].phase;
      phase.Tombstoned? && phase.at + c.keepFor <= states[i].now && acts[i].By? && !acts[i].t.Worker?
  {
    assert StepAt(c, states, acts, i);
    OnlyCollectionDrops(c, states[i], acts[i], l);
    RunCollectsAged(c, states, acts, i, acts[i].t);
  }

  /** A worker that serves a lease serves it to its own sender, who asked for the work when the visit
      began, and has found it unexpired, with its worktree and with a matching row. */
  lemma ServedToOwner(c: Config, states: seq<State>, acts: seq<Action>, i: nat, t: Thread) returns (j: nat)
    requires IsRun(c, states, acts) && i <= |acts| && Pc(states[i], t).In? && Pc(states[i], t).stage.Serving?
    ensures
      var l := Pc(states[i], t).l;
      && VisitSince(states, t, l, j, i) && IsArmed(states[i].records, l)
      && Serves(c, states, acts, j, i, t, l, states[i].records[l])
  {
    RunKeepsInv(c, states, acts, i);
    assert PcOk(c, states[i], t, Pc(states[i], t));
    j := VisitOf(c, states, acts, i, t, Pc(states[i], t).l);
  }

  // ---------------------------------------------------------------------------
  // What a lane pass goes by
  // ---------------------------------------------------------------------------

  /** The snapshot of a pass under way. */
  function SnapOf(pc: PC): Option<Snapshot> {
    match pc
    case Between(snap) => Some(snap)
    case Opening(LanePass(snap), _, _, _) => Some(snap)
    case In(LanePass(snap), _, _) => Some(snap)
    case _ => None
  }

  lemma MoveRowsRead(c: Config, s: State, t: Thread, move: Move)
    requires MoveEnabled(c, s, t, move) && Pc(MoveNext(c, s, t, move), t).RowsRead?
    ensures move.ReadRows? && Pc(MoveNext(c, s, t, move), t).rows == s.rows
  {
    match move case _ =>
  }

  lemma MoveSnapRead(c: Config, s: State, t: Thread, move: Move)
    requires MoveEnabled(c, s, t, move) && SnapOf(Pc(MoveNext(c, s, t, move), t)).Some?
    ensures
      var pc, snap := Pc(s, t), SnapOf(Pc(MoveNext(c, s, t, move), t)).value;
      if move.ReadRecords? then pc.RowsRead? && snap == Snapshot(pc.rows, s.records) else SnapOf(pc) == Some(snap)
  {
    match move case _ =>
  }

  lemma ArmReadsNothing(c: Config, s: State, step: ArmStep)
    requires ArmEnabled(c, s, step)
    ensures
      var pc, pc' := Pc(s, Inbox), Pc(ArmNext(c, s, step), Inbox);
      (pc'.RowsRead? ==> pc' == pc) && (SnapOf(pc').Some? ==> SnapOf(pc') == SnapOf(pc))
  {
    match step case _ =>
  }

  lemma RowsReadBackMoved(c: Config, s: State, a: Action, t: Thread)
    requires Enabled(c, s, a) && Moves(a, t) && Pc(Next(c, s, a), t).RowsRead?
    ensures
      (a == By(t, ReadRows) && Pc(Next(c, s, a), t).rows == s.rows) || Pc(s, t) == Pc(Next(c, s, a), t)
  {
    if a.By? {
      MoveRowsRead(c, s, t, a.move);
    } else if a.Arm? {
      ArmReadsNothing(c, s, a.step);
    } else {
      CrashIdles(c, s, t);
    }
  }

  lemma RowsReadBack(c: Config, s: State, a: Action, t: Thread)
    requires Enabled(c, s, a) && Pc(Next(c, s, a), t).RowsRead?
    ensures
      (a == By(t, ReadRows) && Pc(Next(c, s, a), t).rows == s.rows) || Pc(s, t) == Pc(Next(c, s, a), t)
  {
    if Moves(a, t) {
      RowsReadBackMoved(c, s, a, t);
    } else {
      OthersStay(c, s, a, t);
    }
  }

  lemma SnapReadBackMoved(c: Config, s: State, a: Action, t: Thread)
    requires Enabled(c, s, a) && Moves(a, t) && SnapOf(Pc(Next(c, s, a), t)).Some?
    ensures
      var pc, snap := Pc(s, t), SnapOf(Pc(Next(c, s, a), t)).value;
      (a == By(t, ReadRecords) && pc.RowsRead? && snap == Snapshot(pc.rows, s.records)) || SnapOf(pc) == Some(snap)
  {
    if a.By? {
      MoveSnapRead(c, s, t, a.move);
    } else if a.Arm? {
      ArmReadsNothing(c, s, a.step);
    } else {
      CrashIdles(c, s, t);
    }
  }

  lemma SnapReadBack(c: Config, s: State, a: Action, t: Thread)
    requires Enabled(c, s, a) && SnapOf(Pc(Next(c, s, a), t)).Some?
    ensures
      var pc, snap := Pc(s, t), SnapOf(Pc(Next(c, s, a), t)).value;
      (a == By(t, ReadRecords) && pc.RowsRead? && snap == Snapshot(pc.rows, s.records)) || SnapOf(pc) == Some(snap)
  {
    if Moves(a, t) {
      SnapReadBackMoved(c, s, a, t);
    } else {
      OthersStay(c, s, a, t);
    }
  }

  lemma {:induction false} RowsReadAt(c: Config, states: seq<State>, acts: seq<Action>, i: nat, t: Thread)
    returns (j: nat)
    requires IsRun(c, states, acts) && i <= |acts| && Pc(states[i], t).RowsRead?
    ensures j < i && acts[j] == By(t, ReadRows) && Pc(states[i], t).rows == states[j].rows
  {
    assert i > 0 by { assert states[0].pcs == map[]; }
    assert StepAt(c, states, acts, i - 1);
    RowsReadBack(c, states[i - 1], acts[i - 1], t);
    if Pc(states[i - 1], t) == Pc(states[i], t) {
      j := RowsReadAt(c, states, acts, i - 1, t);
    } else {
      j := i - 1;
    }
  }

  lemma {:induction false} SnapReadAt(c: Config, states: seq<State>, acts: seq<Action>, i: nat, t: Thread)
    returns (j: nat, k: nat)
    requires IsRun(c, states, acts) && i <= |acts| && SnapOf(Pc(states[i], t)).Some?
    ensures j < k < i && acts[j] == By(t, ReadRows) && acts[k] == By(t, ReadRecords)
    ensures SnapOf(Pc(states[i], t)) == Some(Snapshot(states[j].rows, states[k].records))
  {
    assert i > 0 by { assert states[0].pcs == map[]; }
    assert StepAt(c, states, acts, i - 1);
    SnapReadBack(c, states[i - 1], acts[i - 1], t);
    if SnapOf(Pc(states[i - 1], t)) == SnapOf(Pc(states[i], t)) {
      j, k := SnapReadAt(c, states, acts, i - 1, t);
    } else {
      k := i - 1;
      j := RowsReadAt(c, states, acts, k, t);
    }
  }

  /** A lane pass takes a lease, in any run, only for what it read, the rows first and then the records: a row of
      a tombstone, a row without a record, or an armed record whose row is missing, of another lane or of
      another owner. */
  lemma PassTakesForCause(c: Config, states: seq<State>, acts: seq<Action>, i: nat, t: Thread, l: LeaseId, why: Why)
    returns (j: nat, k: nat)
    requires IsRun(c, states, acts) && i < |acts| && acts[i] == By(t, OpenForPass(l, why))
    ensures j < k < i && acts[j] == By(t, ReadRows) && acts[k] == By(t, ReadRecords)
    ensures
      var rows, records := states[j].rows, states[k].records;
      match why
      case TombstonedRow => l in rows && l in records && !records[l].phase.Armed?
      case OrphanRow => l in rows && l !in records
      case Mismatch =>
        && l in records && records[l].phase.Armed?
        && (l !in rows || rows[l] != records[l].lane || !c.ownConsumer)
      case Direct => false
  {
    assert StepAt(c, states, acts, i);
    j, k := SnapReadAt(c, states, acts, i, t);
  }
}
