/**
  Which request an ok arm reply answers, and what a request can always achieve: from any state of the
  protocol an arm within its quotas can end in an ok reply, a redelivered arm of a lease that stands can
  be answered again, the sender of a lease can release it, and a worker can serve it.
 */
module LeaseRequests {
  import opened Common
  import opened LeaseProtocol
  import opened LeaseInvariant
  import opened LeaseBooks
  import opened LeaseLocks
  import opened LeasePaths
  import opened LeaseCauses
  import opened LeaseReplies

  // ---------------------------------------------------------------------------
  // The request an ok reply answers
  // ---------------------------------------------------------------------------

  /** The arm in progress is that of `req`, looked up at action `j`: its record, once published, says what
      the request said and lasts as long as the request asked from the moment of publication. */
  ghost predicate Carries(c: Config, states: seq<State>, j: nat, i: nat, req: ArmRequest)
    requires j < i < |states|
  {
    match Pc(states[i], Inbox)
    case In(Arming, _, Open(rec)) => Records(c, states, j, i, req, rec)
    case In(Arming, _, Rowed(rec)) => Records(c, states, j, i, req, rec)
    case In(Arming, _, Stored(rec)) => Records(c, states, j, i, req, rec)
    case pc => Pending(pc) == Some(req)
  }

  ghost predicate Records(c: Config, states: seq<State>, j: nat, i: nat, req: ArmRequest, rec: Record)
    requires j < i < |states|
  {
    && rec.sender == req.sender && rec.name == req.name && rec.request == req.id && rec.lane == c.lane && rec.phase.Armed?
    && states[j].now + req.ttl <= rec.expires <= states[i].now + req.ttl
  }

  /** The inbox thread is on the way to an ok reply. */
  predicate OnArm(pc: PC) {
    Pending(pc).Some? || (pc.In? && pc.job.Arming? && (pc.stage.Open? || pc.stage.Rowed? || pc.stage.Stored?))
  }

  /** An arm never holds a lease it has not minted. */
  predicate ArmsMinted(pc: PC) {
    && (pc.Opening? && pc.aim.Arming? ==> pc.entry.Minted?)
    && (pc.In? && pc.job.Arming? ==> !pc.stage.Hold?)
  }

  lemma ArmIsMinted(c: Config, s: State)
    requires PcOk(c, s, Inbox, Pc(s, Inbox))
    ensures ArmsMinted(Pc(s, Inbox))
  {
  }

  /** An arm past its record moves on by its own steps only. */
  lemma MoveKeepsRecord(c: Config, s: State, move: Move)
    requires MoveEnabled(c, s, Inbox, move) && ArmsMinted(Pc(s, Inbox))
    ensures
      var pc' := Pc(MoveNext(c, s, Inbox, move), Inbox);
      pc'.In? && pc'.job.Arming? ==> Pending(pc').Some? || pc'.stage.Removed? || pc'.stage.Shut?
  {
    match move case _ =>
  }

  lemma MoveCarries(c: Config, s: State, move: Move)
    requires MoveEnabled(c, s, Inbox, move) && PcOk(c, s, Inbox, Pc(s, Inbox))
    requires OnArm(Pc(MoveNext(c, s, Inbox, move), Inbox))
    ensures
      var pc, pc' := Pc(s, Inbox), Pc(MoveNext(c, s, Inbox, move), Inbox);
      OnArm(pc) && Pending(pc') == Pending(pc) && Pending(pc).Some?
  {
    ArmIsMinted(c, s);
    MoveKeepsRecord(c, s, move);
    MovePending(c, s, Inbox, move);
  }

  lemma ArmCarries(c: Config, s: State, step: ArmStep)
    requires ArmEnabled(c, s, step) && OnArm(Pc(ArmNext(c, s, step), Inbox)) && !step.FindNone?
    requires PcOk(c, s, Inbox, Pc(s, Inbox))
    ensures
      var pc, pc' := Pc(s, Inbox), Pc(ArmNext(c, s, step), Inbox);
      && OnArm(pc)
      && (Pending(pc').Some? ==> Pending(pc') == Pending(pc))
      && (Pending(pc').None? ==>
            if Pending(pc).Some? then pc'.stage.rec == Record(
              Pending(pc).value.sender, Pending(pc).value.name, c.lane, Pending(pc).value.id,
              s.now + Pending(pc).value.ttl, Armed)
            else pc'.stage.rec == pc.stage.rec)
  {
    match step case _ =>
  }

  lemma ArmBegins(c: Config, s: State, req: ArmRequest)
    requires ArmEnabled(c, s, FindNone(req))
    ensures Pc(ArmNext(c, s, FindNone(req)), Inbox) == ArmFresh(req)
  {
  }

  lemma MovedOnArm(c: Config, s: State, a: Action)
    requires Enabled(c, s, a) && PcOk(c, s, Inbox, Pc(s, Inbox)) && OnArm(Pc(Next(c, s, a), Inbox))
    requires Moves(a, Inbox) && !(a.Arm? && a.step.FindNone?)
    ensures OnArm(Pc(s, Inbox))
  {
    if a.By? {
      MoveCarries(c, s, a.move);
    } else if a.Arm? {
      ArmCarries(c, s, a.step);
    } else {
      CrashIdles(c, s, Inbox);
    }
  }

  lemma OnArmStep(c: Config, s: State, a: Action)
    requires Enabled(c, s, a) && PcOk(c, s, Inbox, Pc(s, Inbox)) && OnArm(Pc(Next(c, s, a), Inbox))
    requires !(a.Arm? && a.step.FindNone?)
    ensures OnArm(Pc(s, Inbox))
  {
    if !Moves(a, Inbox) {
      OthersStay(c, s, a, Inbox);
    } else {
      MovedOnArm(c, s, a);
    }
  }

  lemma CarryStep(c: Config, states: seq<State>, acts: seq<Action>, j: nat, i: nat, req: ArmRequest)
    requires IsRun(c, states, acts) && j < i < |acts| && PcOk(c, states[i], Inbox, Pc(states[i], Inbox))
    requires states[j].now <= states[i].now && OnArm(Pc(states[i], Inbox)) && Carries(c, states, j, i, req)
    requires OnArm(Pc(states[i + 1], Inbox)) && !(acts[i].Arm? && acts[i].step.FindNone?)
    ensures Carries(c, states, j, i + 1, req)
  {
    assert StepAt(c, states, acts, i);
    var s, a := states[i], acts[i];
    ClockRuns(c, s, a);
    if !Moves(a, Inbox) {
      OthersStay(c, s, a, Inbox);
    } else if a.By? {
      MoveCarries(c, s, a.move);
    } else if a.Arm? {
      ArmCarries(c, s, a.step);
    }
  }

  /** The delivery the inbox thread is working on. */
  lemma {:induction false} RequestOf(c: Config, states: seq<State>, acts: seq<Action>, i: nat)
    returns (j: nat, req: ArmRequest)
    requires IsRun(c, states, acts) && i <= |acts| && OnArm(Pc(states[i], Inbox))
    ensures j < i && acts[j] == Arm(FindNone(req)) && states[j].now <= states[i].now
    ensures Carries(c, states, j, i, req)
  {
    assert i > 0 by { assert states[0].pcs == map[]; }
    RunKeepsInv(c, states, acts, i - 1);
    var s, a := states[i - 1], acts[i - 1];
    assert PcOk(c, s, Inbox, Pc(s, Inbox)) && StepAt(c, states, acts, i - 1);
    ClockRuns(c, s, a);
    if a.Arm? && a.step.FindNone? {
      j, req := i - 1, a.step.req;
      ArmBegins(c, s, req);
    } else {
      OnArmStep(c, s, a);
      j, req := RequestOf(c, states, acts, i - 1);
      CarryStep(c, states, acts, j, i - 1, req);
    }
  }

  /** An ok reply answers the request delivered at action `j`: the armed record has its sender, worktree
      name and id and the seat's lane, and lasts for its time to live from some moment since. */
  lemma OkAnswersItsRequest(c: Config, states: seq<State>, acts: seq<Action>, i: nat) returns (j: nat, req: ArmRequest)
    requires IsRun(c, states, acts) && i < |acts| && acts[i] == Arm(ReplyOk)
    ensures j < i && acts[j] == Arm(FindNone(req))
    ensures Pc(states[i], Inbox).In?
    ensures
      var l := Pc(states[i], Inbox).l;
      l in states[i].records && Records(c, states, j, i, req, states[i].records[l])
  {
    assert StepAt(c, states, acts, i);
    RunKeepsInv(c, states, acts, i);
    assert PcOk(c, states[i], Inbox, Pc(states[i], Inbox));
    j, req := RequestOf(c, states, acts, i);
  }

  /** And its durable result is stored under that request's id, and names that lease. */
  lemma OkIsStoredForItsRequest(c: Config, states: seq<State>, acts: seq<Action>, i: nat)
    returns (j: nat, req: ArmRequest)
    requires IsRun(c, states, acts) && i < |acts| && acts[i] == Arm(StoreOk)
    ensures j < i && acts[j] == Arm(FindNone(req))
    ensures Pc(states[i], Inbox).In?
    ensures states[i + 1].results == states[i].results[req.id := ArmOk(Pc(states[i], Inbox).l)]
  {
    assert StepAt(c, states, acts, i);
    RunKeepsInv(c, states, acts, i);
    assert PcOk(c, states[i], Inbox, Pc(states[i], Inbox));
    j, req := RequestOf(c, states, acts, i);
  }

  // ---------------------------------------------------------------------------
  // The request a replayed reply answers
  // ---------------------------------------------------------------------------

  lemma MoveReplays(c: Config, s: State, move: Move)
    requires MoveEnabled(c, s, Inbox, move)
    ensures !Pc(MoveNext(c, s, Inbox, move), Inbox).Replaying?
  {
    match move case _ =>
  }

  lemma ArmReplays(c: Config, s: State, step: ArmStep)
    requires ArmEnabled(c, s, step) && Pc(ArmNext(c, s, step), Inbox).Replaying? && !step.FindPrior?
    ensures
      var pc, pc' := Pc(s, Inbox), Pc(ArmNext(c, s, step), Inbox);
      pc.Replaying? && pc'.l == pc.l && pc'.rec == pc.rec
  {
    match step case _ =>
  }

  lemma PriorBegins(c: Config, s: State, req: ArmRequest, l: LeaseId)
    requires ArmEnabled(c, s, FindPrior(req, l)) && Pc(ArmNext(c, s, FindPrior(req, l)), Inbox).Replaying?
    ensures l in s.records && s.records[l].request == req.id && s.records[l].phase.Armed?
    ensures Pc(ArmNext(c, s, FindPrior(req, l)), Inbox) == Replaying(l, s.records[l], false, false)
  {
  }

  lemma MovedReplay(c: Config, s: State, a: Action)
    requires Enabled(c, s, a) && Moves(a, Inbox) && Pc(Next(c, s, a), Inbox).Replaying?
    ensures a.Arm? && Pc(ArmNext(c, s, a.step), Inbox).Replaying?
  {
    if a.By? {
      MoveReplays(c, s, a.move);
    }
  }

  lemma ReplayBack(c: Config, s: State, a: Action)
    requires Enabled(c, s, a) && Pc(Next(c, s, a), Inbox).Replaying? && !(a.Arm? && a.step.FindPrior?)
    ensures
      var pc, pc' := Pc(s, Inbox), Pc(Next(c, s, a), Inbox);
      pc.Replaying? && pc'.l == pc.l && pc'.rec == pc.rec
  {
    if Moves(a, Inbox) {
      MovedReplay(c, s, a);
      ArmReplays(c, s, a.step);
    } else {
      OthersStay(c, s, a, Inbox);
    }
  }

  lemma {:induction false} PriorOf(c: Config, states: seq<State>, acts: seq<Action>, i: nat)
    returns (j: nat, req: ArmRequest)
    requires IsRun(c, states, acts) && i <= |acts| && Pc(states[i], Inbox).Replaying?
    ensures
      var pc := Pc(states[i], Inbox);
      && j < i && acts[j] == Arm(FindPrior(req, pc.l))
      && pc.l in states[j].records && states[j].records[pc.l] == pc.rec && pc.rec.request == req.id && pc.rec.phase.Armed?
  {
    assert i > 0 by { assert states[0].pcs == map[]; }
    var s, a := states[i - 1], acts[i - 1];
    assert StepAt(c, states, acts, i - 1);
    if a.Arm? && a.step.FindPrior? {
      j, req := i - 1, a.step.req;
      PriorBegins(c, s, req, a.step.l);
    } else {
      ReplayBack(c, s, a);
      j, req := PriorOf(c, states, acts, i - 1);
    }
  }

  /** A replay answers the redelivery that found, at action `j`, the armed lease of that request id. */
  lemma ReplayAnswersItsRequest(c: Config, states: seq<State>, acts: seq<Action>, i: nat)
    returns (j: nat, req: ArmRequest)
    requires IsRun(c, states, acts) && i < |acts| && acts[i] == Arm(ReplayOk)
    ensures Pc(states[i], Inbox).Replaying?
    ensures
      var l := Pc(states[i], Inbox).l;
      && j < i && acts[j] == Arm(FindPrior(req, l))
      && IsArmed(states[j].records, l) && states[j].records[l].request == req.id
      && states[i + 1].results == states[i].results[req.id := ArmOk(l)]
  {
    assert StepAt(c, states, acts, i);
    j, req := PriorOf(c, states, acts, i);
  }

  // ---------------------------------------------------------------------------
  // A durable result stays as it is
  // ---------------------------------------------------------------------------

  /** The request whose result the inbox thread has still to store. */
  function Unanswered(pc: PC): Option<RequestId> {
    match pc
    case In(Arming, _, Open(rec)) => Some(rec.request)
    case In(Arming, _, Rowed(rec)) => Some(rec.request)
    case Replaying(_, rec, _, _) => Some(rec.request)
    case _ => if Pending(pc).Some? then Some(Pending(pc).value.id) else None
  }

  predicate NoneYet(s: State) {
    Unanswered(Pc(s, Inbox)).Some? ==> Unanswered(Pc(s, Inbox)).value !in s.results
  }

  lemma MoveAnswersNothing(c: Config, s: State, move: Move)
    requires MoveEnabled(c, s, Inbox, move) && ArmsMinted(Pc(s, Inbox))
    ensures
      var pc, pc' := Pc(s, Inbox), Pc(MoveNext(c, s, Inbox, move), Inbox);
      Unanswered(pc').Some? ==> Unanswered(pc') == Unanswered(pc)
  {
    MoveReplays(c, s, move);
    MoveKeepsRecord(c, s, move);
    MovePending(c, s, Inbox, move);
  }

  /** Which results an arm step stores. */
  lemma ArmResults(c: Config, s: State, step: ArmStep)
    requires ArmEnabled(c, s, step)
    ensures
      var s', pc := ArmNext(c, s, step), Pc(s, Inbox);
      || s'.results == s.results
      || (step.FindPrior? && s'.results == s.results[step.req.id := Refused] && step.req.id !in s.results)
      || (step.StoreRefusal? && s'.results == s.results[step.id := Refused] && step.id !in s.results)
      || (step.StoreOk? && pc.In? && pc.stage.Rowed? && s'.results == s.results[pc.stage.rec.request := ArmOk(pc.l)])
      || (step.ReplayOk? && pc.Replaying? && s'.results == s.results[pc.rec.request := ArmOk(pc.l)])
  {
    match step case _ =>
  }

  /** An arm step starts on a request without a result or goes on with the one there is. */
  lemma ArmAsks(c: Config, s: State, step: ArmStep)
    requires ArmEnabled(c, s, step)
    ensures
      var next := Unanswered(Pc(ArmNext(c, s, step), Inbox));
      next.Some? ==> next == Unanswered(Pc(s, Inbox)) || next.value !in s.results
  {
    match step case _ =>
  }

  /** Once a result is stored there is none to store. */
  lemma StoringAnswers(c: Config, s: State, step: ArmStep)
    requires ArmEnabled(c, s, step) && ArmNext(c, s, step).results != s.results
    ensures Unanswered(Pc(ArmNext(c, s, step), Inbox)).None?
  {
    match step case _ =>
  }

  lemma ArmAnswers(c: Config, s: State, step: ArmStep)
    requires ArmEnabled(c, s, step) && NoneYet(s)
    requires Pc(s, Inbox).In? && Pc(s, Inbox).stage.Rowed? ==> Pc(s, Inbox).job.Arming?
    ensures NoneYet(ArmNext(c, s, step))
    ensures forall id | id in s.results ::
      id in ArmNext(c, s, step).results && ArmNext(c, s, step).results[id] == s.results[id]
  {
    ArmResults(c, s, step);
    ArmAsks(c, s, step);
    if ArmNext(c, s, step).results != s.results {
      StoringAnswers(c, s, step);
    }
  }

  lemma RowedArms(c: Config, s: State)
    requires PcOk(c, s, Inbox, Pc(s, Inbox))
    ensures Pc(s, Inbox).In? && Pc(s, Inbox).stage.Rowed? ==> Pc(s, Inbox).job.Arming?
  {
  }

  lemma ResultStep(c: Config, s: State, a: Action)
    requires Inv(c, s) && Enabled(c, s, a) && NoneYet(s)
    ensures NoneYet(Next(c, s, a))
    ensures forall id | id in s.results && a != ExpireResult(id) ::
      id in Next(c, s, a).results && Next(c, s, a).results[id] == s.results[id]
  {
    assert PcOk(c, s, Inbox, Pc(s, Inbox));
    ArmIsMinted(c, s);
    RowedArms(c, s);
    match a
    case By(t, move) =>
      MoveRows(c, s, t, move);
      if t.Inbox? {
        MoveAnswersNothing(c, s, move);
      } else {
        MoveOnlyMoves(c, s, t, move, Inbox);
      }
    case Arm(step) => ArmAnswers(c, s, step);
    case _ =>
  }

  lemma {:induction false} RunNoneYet(c: Config, states: seq<State>, acts: seq<Action>, i: nat)
    requires IsRun(c, states, acts) && i <= |acts|
    ensures NoneYet(states[i])
  {
    if i > 0 {
      RunNoneYet(c, states, acts, i - 1);
      RunKeepsInv(c, states, acts, i - 1);
      assert StepAt(c, states, acts, i - 1);
      ResultStep(c, states[i - 1], acts[i - 1]);
    }
  }

  /** Over every run, a durable result, ok or refusal, is never overwritten; it stays until it expires. */
  lemma ResultsStay(c: Config, states: seq<State>, acts: seq<Action>, i: nat, id: RequestId)
    requires IsRun(c, states, acts) && i < |acts| && id in states[i].results && acts[i] != ExpireResult(id)
    ensures id in states[i + 1].results && states[i + 1].results[id] == states[i].results[id]
  {
    RunNoneYet(c, states, acts, i);
    RunKeepsInv(c, states, acts, i);
    assert StepAt(c, states, acts, i);
    ResultStep(c, states[i], acts[i]);
  }

  // ---------------------------------------------------------------------------
  // What a request can achieve
  // ---------------------------------------------------------------------------

  lemma FindsNone(c: Config, s: State, req: ArmRequest) returns (acts: seq<Action>)
    requires Pc(s, Inbox).Idle? && req.id !in s.results && forall m | m in s.records :: s.records[m].request != req.id
    ensures After(c, s, acts) == Some(Go(s, Inbox, ArmFresh(req)))
  {
    var s';
    acts, s' := Do(c, s, [], s, Arm(FindNone(req)));
  }

  lemma HasQuota(c: Config, s: State, req: ArmRequest) returns (acts: seq<Action>)
    requires Pc(s, Inbox) == ArmFresh(req)
    requires |ArmedSet(s.records)| < c.maxArmed && |ArmedBy(s.records, req.sender)| < c.maxPerSender
    ensures After(c, s, acts) == Some(Go(s, Inbox, ArmReady(req)))
  {
    var s';
    acts, s' := Do(c, s, [], s, Arm(CheckQuota));
  }

  lemma Mints(c: Config, s: State, req: ArmRequest, l: LeaseId) returns (acts: seq<Action>)
    requires Pc(s, Inbox) == ArmReady(req) && l !in s.used
    ensures After(c, s, acts) == Some(Opened(s, Inbox, l, Arming, Minted(req)))
  {
    var s';
    acts, s' := Do(c, s, [], s, Arm(Mint(l)));
  }

  /** Nothing differs but the threads' places, the locks and the ids used. */
  predicate SameButThreads(s: State, s': State) {
    s' == s.(pcs := s'.pcs, locks := s'.locks, used := s'.used)
  }

  lemma MintsAndLocks(c: Config, s: State, req: ArmRequest, l: LeaseId) returns (acts: seq<Action>, s': State)
    requires Pc(s, Inbox) == ArmReady(req) && l !in s.used && l !in s.locks
    ensures After(c, s, acts) == Some(s') && Pc(s', Inbox) == In(Arming, l, Minted(req)) && SameButThreads(s, s')
  {
    OpenedAndLocked(s, Inbox, l, Arming, Minted(req));
    var s1 := Opened(s, Inbox, l, Arming, Minted(req));
    var a := Mints(c, s, req, l);
    var b := Flocks(c, s1, Inbox);
    AfterJoin(c, s, a, s1, b);
    acts, s' := a + b, FlockNext(s1, Inbox);
  }

  /** An arm delivery up to its minted and locked lease. */
  lemma ArmMints(c: Config, s: State, req: ArmRequest, l: LeaseId) returns (acts: seq<Action>, s': State)
    requires Pc(s, Inbox).Idle? && req.id !in s.results && forall m | m in s.records :: s.records[m].request != req.id
    requires |ArmedSet(s.records)| < c.maxArmed && |ArmedBy(s.records, req.sender)| < c.maxPerSender
    requires l !in s.used && l !in s.locks
    ensures After(c, s, acts) == Some(s') && Pc(s', Inbox) == In(Arming, l, Minted(req)) && SameButThreads(s, s')
  {
    var a := FindsNone(c, s, req);
    var s1 := Go(s, Inbox, ArmFresh(req));
    var b := HasQuota(c, s1, req);
    var s2 := Go(s1, Inbox, ArmReady(req));
    var d, s3 := MintsAndLocks(c, s2, req, l);
    AfterJoin(c, s, a, s1, b);
    AfterJoin(c, s, a + b, s2, d);
    acts, s' := a + b + d, s3;
  }

  /** From any state of the protocol with the inbox thread idle, an arm whose request id is new, with room
      in both quotas, a fresh lease id and a free worktree name can end in an ok reply. */
  lemma ArmCanSucceed(c: Config, s: State, req: ArmRequest, l: LeaseId) returns (acts: seq<Action>, s': State)
    requires Inv(c, s) && LocksOk(s) && c.boundLane == c.lane && c.ownConsumer
    requires Pc(s, Inbox).Idle? && req.id !in s.results && forall m | m in s.records :: s.records[m].request != req.id
    requires |ArmedSet(s.records)| < c.maxArmed && |ArmedBy(s.records, req.sender)| < c.maxPerSender
    requires l !in s.used && req.name !in s.trees
    ensures After(c, s, acts) == Some(s') && ArmEnabled(c, s', ReplyOk)
    ensures l in s'.records && s'.records[l] == Record(req.sender, req.name, c.lane, req.id, s.now + req.ttl, Armed)
    ensures Healthy(c, s', l)
  {
    assert SlotOk(At(s, l));
    var a, mid := ArmMints(c, s, req, l);
    AfterKeepsInv(c, s, a);
    var b;
    b, s' := ArmWalks(c, mid);
    AfterJoin(c, s, a, mid, b);
    acts := a + b;
    StoredReplies(c, s');
  }

  lemma StoredReplies(c: Config, s: State)
    requires Inv(c, s) && Pc(s, Inbox).In? && Pc(s, Inbox).stage.Stored?
    ensures ArmEnabled(c, s, ReplyOk) && Healthy(c, s, Pc(s, Inbox).l)
  {
    assert PcOk(c, s, Inbox, Pc(s, Inbox));
  }

  lemma FindsPrior(c: Config, s: State, req: ArmRequest, l: LeaseId) returns (acts: seq<Action>)
    requires Pc(s, Inbox).Idle? && req.id !in s.results && IsArmed(s.records, l) && s.records[l].request == req.id
    ensures After(c, s, acts) == Some(Go(s, Inbox, Replaying(l, s.records[l], false, false)))
  {
    var s';
    acts, s' := Do(c, s, [], s, Arm(FindPrior(req, l)));
  }

  /** A redelivered arm of a lease with its row and its worktree can be answered ok again. */
  lemma ReplayCanSucceed(c: Config, s: State, req: ArmRequest, l: LeaseId) returns (acts: seq<Action>, s': State)
    requires Pc(s, Inbox).Idle? && req.id !in s.results && Healthy(c, s, l)
    requires s.records[l].request == req.id && s.records[l].name in s.trees
    ensures After(c, s, acts) == Some(s') && ArmEnabled(c, s', ReplayOk) && Pc(s', Inbox).l == l
    ensures s' == s.(pcs := s'.pcs)
  {
    var a := FindsPrior(c, s, req, l);
    var s1 := Go(s, Inbox, Replaying(l, s.records[l], false, false));
    var b, s2 := Do(c, s1, [], s1, Arm(ReplayRow));
    b, s' := Do(c, s1, b, s2, Arm(ReplayTree));
    AfterJoin(c, s, a, s1, b);
    acts := a + b;
  }

  lemma ReleaseLocks(c: Config, s: State, l: LeaseId, sender: Sender) returns (acts: seq<Action>, s': State)
    requires Pc(s, Inbox).Idle? && l !in s.locks
    ensures After(c, s, acts) == Some(s') && SameButThreads(s, s')
    ensures Pc(s', Inbox) == In(Releasing(sender), l, Hold(Direct))
  {
    OpenedAndLocked(s, Inbox, l, Releasing(sender), Hold(Direct));
    var s1 := Opened(s, Inbox, l, Releasing(sender), Hold(Direct));
    var a := ReleaseOpensFile(c, s, l, sender);
    var b := Flocks(c, s1, Inbox);
    AfterJoin(c, s, a, s1, b);
    acts, s' := a + b, FlockNext(s1, Inbox);
  }

  lemma ReleaseLoads(c: Config, s: State, l: LeaseId) returns (acts: seq<Action>, s': State)
    requires IsArmed(s.records, l) && s.records[l].name in s.trees
    requires Pc(s, Inbox) == In(Releasing(s.records[l].sender), l, Hold(Direct))
    ensures After(c, s, acts) == Some(s') && s' == s.(pcs := s'.pcs)
    ensures Pc(s', Inbox) == In(Releasing(s.records[l].sender), l, Open(s.records[l]))
  {
    acts, s' := Do(c, s, [], s, By(Inbox, Load));
  }

  lemma ReleaseReclaims(c: Config, s: State, l: LeaseId, rec: Record) returns (acts: seq<Action>, s': State)
    requires Pc(s, Inbox) == In(Releasing(rec.sender), l, Open(rec))
    ensures After(c, s, acts) == Some(s') && s' == s.(pcs := s'.pcs, trees := s.trees - {rec.name})
    ensures Pc(s', Inbox) == In(Releasing(rec.sender), l, Removed(rec, true))
  {
    acts, s' := Do(c, s, [], s, By(Inbox, Reclaim(true)));
  }

  lemma ReleaseRetires(c: Config, s: State, l: LeaseId, rec: Record) returns (acts: seq<Action>, s': State)
    requires Pc(s, Inbox) == In(Releasing(rec.sender), l, Removed(rec, true))
    ensures After(c, s, acts) == Some(s')
    ensures s' == s.(pcs := s'.pcs, records := s.records[l := rec.(phase := Tombstoned(s.now))], rows := s.rows - {l})
  {
    var mid;
    acts, mid := Do(c, s, [], s, By(Inbox, Tombstone));
    assert Pc(mid, Inbox) == In(Releasing(rec.sender), l, Shut(true));
    acts, s' := Do(c, s, acts, mid, By(Inbox, Retire));
  }

  /** With the inbox thread idle and the lease unlocked, the sender of an armed lease whose worktree is there
      can have it released: record tombstoned, worktree removed, row retired, nothing else changed. */
  lemma OwnerCanRelease(c: Config, s: State, l: LeaseId) returns (acts: seq<Action>, s': State)
    requires Pc(s, Inbox).Idle? && l !in s.locks && IsArmed(s.records, l) && s.records[l].name in s.trees
    ensures After(c, s, acts) == Some(s')
    ensures
      var rec := s.records[l];
      && s'.records == s.records[l := rec.(phase := Tombstoned(s.now))] && s'.rows == s.rows - {l}
      && s'.trees == s.trees - {rec.name} && s'.results == s.results && s'.turns == s.turns && s'.now == s.now
  {
    var rec := s.records[l];
    var a, s1 := ReleaseLocks(c, s, l, rec.sender);
    var b, s2 := ReleaseLoads(c, s1, l);
    var d, s3 := ReleaseReclaims(c, s2, l, rec);
    var e;
    e, s' := ReleaseRetires(c, s3, l, rec);
    AfterJoin(c, s, a, s1, b);
    AfterJoin(c, s, a + b, s2, d);
    AfterJoin(c, s, a + b + d, s3, e);
    acts := a + b + d + e;
  }

  lemma WorkOpensFile(c: Config, s: State, t: Thread, l: LeaseId, sender: Sender) returns (acts: seq<Action>)
    requires Pc(s, t).Admitted? && Pc(s, t).l == l && Pc(s, t).rec.sender == sender
    ensures After(c, s, acts) == Some(Opened(s, t, l, Working(sender), Hold(Direct)))
  {
    var s';
    acts, s' := Do(c, s, [], s, By(t, OpenForWork(l, sender)));
  }

  lemma WorkIsAdmitted(c: Config, s: State, t: Thread, l: LeaseId) returns (acts: seq<Action>)
    requires Pc(s, t).Idle? && t.Worker? && IsArmed(s.records, l) && Good(c, s, l, s.records[l])
    ensures After(c, s, acts) == Some(Go(s, t, Admitted(l, s.records[l])))
  {
    var s';
    acts, s' := Do(c, s, [], s, By(t, Admit(l, s.records[l].sender)));
  }

  lemma WorkLocks(c: Config, s: State, t: Thread, l: LeaseId, sender: Sender) returns (acts: seq<Action>, s': State)
    requires Pc(s, t).Admitted? && Pc(s, t).l == l && Pc(s, t).rec.sender == sender && l !in s.locks
    ensures After(c, s, acts) == Some(s') && Pc(s', t) == In(Working(sender), l, Hold(Direct)) && SameButThreads(s, s')
  {
    OpenedAndLocked(s, t, l, Working(sender), Hold(Direct));
    var s1 := Opened(s, t, l, Working(sender), Hold(Direct));
    var a := WorkOpensFile(c, s, t, l, sender);
    var b := Flocks(c, s1, t);
    AfterJoin(c, s, a, s1, b);
    acts, s' := a + b, FlockNext(s1, t);
  }

  lemma ServesGood(c: Config, s: State, t: Thread, l: LeaseId) returns (acts: seq<Action>, s': State)
    requires IsArmed(s.records, l) && Good(c, s, l, s.records[l])
    requires Pc(s, t) == In(Working(s.records[l].sender), l, Hold(Direct))
    ensures After(c, s, acts) == Some(s') && s' == s.(pcs := s'.pcs)
    ensures Pc(s', t) == In(Working(s.records[l].sender), l, Serving(s.records[l]))
  {
    acts, s' := Do(c, s, [], s, By(t, Serve));
  }

  /** A worker can serve any good lease that nobody has locked. */
  lemma WorkerCanServe(c: Config, s: State, t: Thread, l: LeaseId) returns (acts: seq<Action>, s': State)
    requires Pc(s, t).Idle? && t.Worker? && l !in s.locks
    requires IsArmed(s.records, l) && Good(c, s, l, s.records[l])
    ensures After(c, s, acts) == Some(s') && SameButThreads(s, s')
    ensures Pc(s', t) == In(Working(s.records[l].sender), l, Serving(s.records[l]))
  {
    var a := WorkIsAdmitted(c, s, t, l);
    var s1 := Go(s, t, Admitted(l, s.records[l]));
    var b, s2 := WorkLocks(c, s1, t, l, s.records[l].sender);
    var d;
    d, s' := ServesGood(c, s2, t, l);
    AfterJoin(c, s, a, s1, b);
    AfterJoin(c, s, a + b, s2, d);
    acts := a + b + d;
  }

  /** A worker inside an expired lease, whether it was serving it or found it expired, can close it. */
  lemma WorkerCanExpire(c: Config, s: State, t: Thread, l: LeaseId) returns (acts: seq<Action>, s': State)
    requires IsArmed(s.records, l) && s.records[l].expires <= s.now
    requires Pc(s, t).In? && Pc(s, t).job.Working? && Pc(s, t).l == l
    requires Pc(s, t).stage == Hold(Direct) || Pc(s, t).stage == Serving(s.records[l])
    ensures After(c, s, acts) == Some(s')
    ensures
      var rec := s.records[l];
      s' == s.(pcs := s'.pcs, records := s.records[l := rec.(phase := Tombstoned(s.now))], trees := s.trees - {rec.name})
  {
    var job, rec := Pc(s, t).job, s.records[l];
    acts, s' := [], s;
    if Pc(s, t).stage.Hold? {
      acts, s' := Do(c, s, [], s, By(t, Load));
    }
    var b;
    b, s' := ExpiredIsClosed(c, s', t, l, rec, job);
    AfterJoin(c, s, acts, if acts == [] then s else Go(s, t, In(job, l, Open(rec))), b);
    acts := acts + b;
  }

  lemma ExpiredIsClosed(c: Config, s: State, t: Thread, l: LeaseId, rec: Record, job: Job)
    returns (acts: seq<Action>, s': State)
    requires job.Working? && rec.expires <= s.now && l in s.records
    requires Pc(s, t) == In(job, l, Open(rec)) || Pc(s, t) == In(job, l, Serving(rec))
    ensures After(c, s, acts) == Some(s')
    ensures
      s' == s.(pcs := s'.pcs, records := s.records[l := rec.(phase := Tombstoned(s.now))], trees := s.trees - {rec.name})
  {
    var mid;
    acts, mid := Do(c, s, [], s, By(t, Reclaim(true)));
    assert Pc(mid, t) == In(job, l, Removed(rec, false));
    acts, s' := Do(c, s, acts, mid, By(t, Tombstone));
  }

  lemma FindsTreeMissing(c: Config, s: State, m: LeaseId, rec: Record) returns (acts: seq<Action>, s': State)
    requires Pc(s, Heartbeat) == In(Sweep, m, Open(rec)) && rec.name !in s.trees
    ensures After(c, s, acts) == Some(s') && AllWait(acts)
    ensures s' == s.(pcs := s'.pcs, records := s.records[m := rec.(phase := Tombstoned(s.now))])
  {
    var mid;
    acts, mid := Do(c, s, [], s, By(Heartbeat, FindMissing));
    assert Pc(mid, Heartbeat) == In(Sweep, m, Removed(rec, false));
    acts, s' := Do(c, s, acts, mid, By(Heartbeat, Tombstone));
  }

  /** A heartbeat sweep can close an armed lease whose worktree is missing, before or after its expiry. */
  lemma SweepCanBury(c: Config, s: State, m: LeaseId) returns (acts: seq<Action>, s': State)
    requires Inv(c, s) && LocksOk(s) && IsArmed(s.records, m) && !Inside(s, Inbox, m) && s.records[m].name !in s.trees
    ensures After(c, s, acts) == Some(s') && AllWait(acts)
    ensures s'.records == s.records[m := s.records[m].(phase := Tombstoned(s'.now))]
    ensures s'.rows == s.rows && s'.trees == s.trees
  {
    assert SlotOk(At(s, m));
    var a, s1 := HeartbeatAndLockFree(c, s, m);
    var b, s2 := SweepLocks(c, s1, m);
    var d, s3 := SweepLoads(c, s2, m);
    var e;
    e, s' := FindsTreeMissing(c, s3, m, s.records[m]);
    AfterJoin(c, s, a, s1, b);
    AfterJoin(c, s, a + b, s2, d);
    AfterJoin(c, s, a + b + d, s3, e);
    acts := a + b + d + e;
  }

  /** Whatever a thread is doing for a lease or a request, an exception can take it out of it: its lock is
      freed and the stores are as they were. */
  lemma AnyoneCanLeave(c: Config, s: State, t: Thread) returns (acts: seq<Action>, s': State)
    requires !Pc(s, t).Idle? && !Pc(s, t).RowsRead? && !Pc(s, t).Between?
    ensures After(c, s, acts) == Some(s') && (Pc(s', t).Idle? || Pc(s', t).Between?)
    ensures s' == s.(pcs := s'.pcs, locks := s'.locks)
    ensures Pc(s, t).In? && Pc(s, t).l in s'.locks ==> s'.locks[Pc(s, t).l] != t
  {
    acts, s' := Do(c, s, [], s, By(t, Leave(false)));
  }
}
