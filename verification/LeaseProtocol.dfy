/**
  The two-record worktree lease protocol as a step relation.

  A lease is a filesystem record, a git worktree and a lane-writer row, guarded
  by a per-lease file lock. The inbox thread arms, replays and releases; the
  inbox and heartbeat threads both reconcile (a store sweep and a lane pass);
  worker threads hold a lease for a turn; ordinary worktree turns create and
  remove worktrees in the same directory without a lease. Every read and every
  write of a store is a step of its own, and so are opening a lock file and
  locking it; any step may be followed by another thread's step, an exception
  (`Leave`) may end any critical section early, and `Crash` drops every thread,
  turn and lock while the three stores survive.
 */
module LeaseProtocol {
  import opened Common

  type LeaseId = nat
  type RequestId = nat
  type Sender = nat
  type Name = nat

  datatype Lane = Gated | Exempt

  datatype Phase = Armed | Tombstoned(at: int)

  datatype Record = Record(
    sender: Sender, name: Name, lane: Lane, request: RequestId, expires: int, phase: Phase)

  datatype ArmRequest = ArmRequest(id: RequestId, sender: Sender, name: Name, ttl: nat)

  /** `lane` is the seat's configured lane, `boundLane` the one the database binds to its role;
      `ownConsumer` says that the bound consumer identity is the seat's own agent id; a tombstone is
      kept for `keepFor` before it may be collected. */
  datatype Config = Config(
    lane: Lane, boundLane: Lane, ownConsumer: bool, maxArmed: nat, maxPerSender: nat, keepFor: nat)

  datatype Thread = Inbox | Heartbeat | Worker(id: nat)

  datatype Why = TombstonedRow | OrphanRow | Mismatch | Direct

  /** Rows and records as one lane pass read them, rows first. */
  datatype Snapshot = Snapshot(rows: map<LeaseId, Lane>, records: map<LeaseId, Record>)

  datatype Job = LanePass(snap: Snapshot) | Sweep | Arming | Releasing(sender: Sender) | Working(sender: Sender)

  /** Where a thread stands inside the critical section of one lease. */
  datatype Stage =
    | Hold(why: Why)
    | Minted(req: ArmRequest)
    | Treed(req: ArmRequest)
    | Open(rec: Record)
    | Serving(rec: Record)
    | Doomed(rec: Record, live: bool)
    | Rowed(rec: Record)
    | Stored(rec: Record)
    | Undo(rec: Record)
    | Removed(rec: Record, live: bool)
    | Shut(live: bool)

  datatype PC =
    | Idle
    | RowsRead(rows: map<LeaseId, Lane>)
    | Between(snap: Snapshot)
    | ArmFresh(req: ArmRequest)
    | ArmReady(req: ArmRequest)
    | Replaying(l: LeaseId, rec: Record, rowSeen: bool, treeSeen: bool)
    | Admitted(l: LeaseId, rec: Record)
    | Collecting(l: LeaseId)
    | Dropped(l: LeaseId)
    | Opening(aim: Job, l: LeaseId, entry: Stage, file: nat)
    | In(job: Job, l: LeaseId, stage: Stage)

  datatype Outcome = ArmOk(l: LeaseId) | Refused

  /** `locks` are the locks on the lock files now in place; `unlinks` counts how often a lease's lock file
      was unlinked, so it numbers the file in place. `turns` are the running ordinary worktree turns that
      will remove their worktree at their end. `used`, `born` and `pruned` are history: ids ever minted or
      named, ids that ever had a record or a row (with the request that armed them), and ids whose
      tombstone was collected. */
  datatype State = State(
    records: map<LeaseId, Record>,
    rows: map<LeaseId, Lane>,
    trees: set<Name>,
    locks: map<LeaseId, Thread>,
    unlinks: map<LeaseId, nat>,
    pcs: map<Thread, PC>,
    turns: map<nat, Name>,
    results: map<RequestId, Outcome>,
    now: int,
    used: set<LeaseId>,
    born: map<LeaseId, Option<RequestId>>,
    pruned: set<LeaseId>)

  datatype RowOutcome = RowWritten | RowFailed | RowFailedButWritten

  /** Steps of a reconcile, release or worker turn by thread `t`. */
  datatype Move =
    | ReadRows
    | ReadRecords
    | EndPass
    | OpenForPass(l: LeaseId, why: Why)
    | OpenForSweep(l: LeaseId)
    | Admit(l: LeaseId, sender: Sender)
    | OpenForWork(l: LeaseId, sender: Sender)
    | OpenForRelease(l: LeaseId, sender: Sender)
    | Flock
    | Load
    | Serve
    | FindMissing
    | Recheck
    | Reclaim(ok: bool)
    | Tombstone
    | Retire
    | FindAged(l: LeaseId)
    | DropRecord
    | DropLock
    | Leave(dropTree: bool)

  /** Steps of an arm delivery or redelivery on the inbox thread. */
  datatype ArmStep =
    | FindNone(req: ArmRequest)
    | FindPrior(req: ArmRequest, l: LeaseId)
    | CheckQuota
    | Mint(l: LeaseId)
    | CreateTree
    | CreateRecord
    | ArmRow(outcome: RowOutcome)
    | UndoRow
    | StoreOk
    | ReplyOk
    | ReplayRow
    | ReplayTree
    | ReplayOk
    | ReplayDurable(id: RequestId)
    | StoreRefusal(id: RequestId)

  datatype Action =
    | By(t: Thread, move: Move)
    | Arm(step: ArmStep)
    | BeginTurn(k: nat, name: Name, auto: bool)
    | EndTurn(k: nat, drop: bool)
    | ForeignRow(l: LeaseId, lane: Lane)
    | ExpireResult(id: RequestId)
    | Tick(at: int)
    | Crash

  // ---------------------------------------------------------------------------
  // Steps
  // ---------------------------------------------------------------------------

  function Pc(s: State, t: Thread): PC {
    if t in s.pcs then s.pcs[t] else Idle
  }

  predicate IsArmed(records: map<LeaseId, Record>, l: LeaseId) {
    l in records && records[l].phase.Armed?
  }

  predicate Matches(c: Config, rows: map<LeaseId, Lane>, l: LeaseId, rec: Record) {
    l in rows && rows[l] == rec.lane && c.ownConsumer
  }

  /** An armed record with a matching row: a lease the lane pass must leave alone. */
  predicate Healthy(c: Config, s: State, l: LeaseId) {
    IsArmed(s.records, l) && Matches(c, s.rows, l, s.records[l])
  }

  function ArmedSet(records: map<LeaseId, Record>): set<LeaseId> {
    set l | l in records && records[l].phase.Armed?
  }

  function ArmedBy(records: map<LeaseId, Record>, sender: Sender): set<LeaseId> {
    set l | l in records && records[l].phase.Armed? && records[l].sender == sender
  }

  predicate NoRecordFor(s: State, id: RequestId) {
    forall l | l in s.records :: s.records[l].request != id
  }

  predicate QuotaLeft(c: Config, s: State, sender: Sender) {
    |ArmedSet(s.records)| < c.maxArmed && |ArmedBy(s.records, sender)| < c.maxPerSender
  }

  function NewRecord(c: Config, now: int, req: ArmRequest): Record {
    Record(req.sender, req.name, c.lane, req.id, now + req.ttl, Armed)
  }

  /** The number of the lock file in place. */
  function File(s: State, l: LeaseId): nat {
    if l in s.unlinks then s.unlinks[l] else 0
  }

  predicate MayTake(c: Config, snap: Snapshot, l: LeaseId, why: Why) {
    match why
    case TombstonedRow => l in snap.rows && l in snap.records && snap.records[l].phase.Tombstoned?
    case OrphanRow => l in snap.rows && l !in snap.records
    case Mismatch => IsArmed(snap.records, l) && !Matches(c, snap.rows, l, snap.records[l])
    case Direct => false
  }

  predicate MayLoad(c: Config, s: State, job: Job, l: LeaseId, why: Why) {
    IsArmed(s.records, l) &&
    var rec := s.records[l];
    match job
    case LanePass(_) => why.Mismatch?
    case Sweep => true
    case Arming => false
    case Releasing(sender) => rec.sender == sender && rec.name in s.trees
    case Working(_) => rec.expires <= s.now
  }

  /** Work is admitted, and later served, for a lease of its request's sender that is not expired and has its
      worktree and a matching row. */
  predicate MayServe(c: Config, s: State, sender: Sender, l: LeaseId) {
    IsArmed(s.records, l) &&
    var rec := s.records[l];
    rec.sender == sender && s.now < rec.expires && rec.name in s.trees && Matches(c, s.rows, l, rec)
  }

  predicate MayReclaim(s: State, job: Job, stage: Stage, ok: bool) {
    match stage
    case Doomed(_, _) => job.LanePass? && ok
    case Undo(_) => job.Arming?
    case Open(rec) =>
      ok && (job.Releasing? || ((job.Sweep? || job.Working?) && rec.expires <= s.now))
    case Serving(rec) => ok && rec.expires <= s.now
    case _ => false
  }

  /** A worker tombstones the lease it serves, worktree and all left in place, when its turn escaped. */
  predicate MayTombstone(stage: Stage) {
    stage.Removed? || stage.Serving?
  }

  predicate MayRetire(job: Job, stage: Stage) {
    match stage
    case Hold(why) => job.LanePass? && (why.TombstonedRow? || why.OrphanRow?)
    case Shut(live) => live
    case _ => false
  }

  /** Collection sees a tombstone of the required age; it takes no lock. */
  predicate MayCollect(c: Config, s: State, l: LeaseId) {
    l in s.records && s.records[l].phase.Tombstoned? && s.records[l].phase.at + c.keepFor <= s.now
  }

  predicate MoveEnabled(c: Config, s: State, t: Thread, move: Move) {
    var pc := Pc(s, t);
    match move
    case ReadRows => pc.Idle? && !t.Worker?
    case ReadRecords => pc.RowsRead?
    case EndPass => pc.Between?
    case OpenForPass(l, why) => pc.Between? && MayTake(c, pc.snap, l, why)
    case OpenForSweep(l) => pc.Idle? && !t.Worker? && l in s.born
    case Admit(l, sender) => pc.Idle? && t.Worker? && MayServe(c, s, sender, l)
    case OpenForWork(l, sender) => pc.Admitted? && pc.l == l && pc.rec.sender == sender
    case OpenForRelease(l, _) => pc.Idle? && t.Inbox?
    case Flock =>
      pc.Opening? && (pc.entry.Hold? || pc.entry.Minted?) && (pc.file == File(s, pc.l) ==> pc.l !in s.locks)
    case Load => pc.In? && pc.stage.Hold? && MayLoad(c, s, pc.job, pc.l, pc.stage.why)
    case Serve => pc.In? && pc.job.Working? && pc.stage.Hold? && MayServe(c, s, pc.job.sender, pc.l)
    case FindMissing => pc.In? && pc.job.Sweep? && pc.stage.Open? && pc.stage.rec.name !in s.trees
    case Recheck =>
      pc.In? && pc.job.LanePass? && pc.stage.Open? && !Matches(c, s.rows, pc.l, pc.stage.rec)
    case Reclaim(ok) => pc.In? && MayReclaim(s, pc.job, pc.stage, ok)
    case Tombstone => pc.In? && MayTombstone(pc.stage)
    case Retire => pc.In? && MayRetire(pc.job, pc.stage)
    case FindAged(l) => pc.Idle? && !t.Worker? && MayCollect(c, s, l)
    case DropRecord => pc.Collecting?
    case DropLock => pc.Dropped?
    case Leave(_) =>
      pc.In? || pc.Opening? || pc.ArmFresh? || pc.ArmReady? || pc.Replaying? || pc.Admitted? || pc.Collecting?
      || pc.Dropped?
  }

  predicate ArmEnabled(c: Config, s: State, step: ArmStep) {
    var pc := Pc(s, Inbox);
    match step
    case FindNone(req) => pc.Idle? && req.id !in s.results && NoRecordFor(s, req.id)
    case FindPrior(req, l) =>
      pc.Idle? && req.id !in s.results && l in s.records && s.records[l].request == req.id
    case CheckQuota => pc.ArmFresh? && QuotaLeft(c, s, pc.req.sender)
    case Mint(l) => pc.ArmReady? && l !in s.used
    case CreateTree => pc.In? && pc.stage.Minted? && pc.stage.req.name !in s.trees
    case CreateRecord => pc.In? && pc.stage.Treed? && pc.l !in s.records
    case ArmRow(outcome) =>
      pc.In? && pc.job.Arming? && pc.stage.Open? &&
      (!outcome.RowFailed? ==> pc.l !in s.rows) &&
      (outcome.RowWritten? ==> c.boundLane == c.lane && c.ownConsumer)
    case UndoRow =>
      pc.In? && pc.job.Arming? && pc.stage.Undo? && pc.l in s.rows && !Matches(c, s.rows, pc.l, pc.stage.rec)
    case StoreOk => pc.In? && pc.stage.Rowed?
    case ReplyOk => pc.In? && pc.stage.Stored?
    case ReplayRow => pc.Replaying? && Matches(c, s.rows, pc.l, pc.rec)
    case ReplayTree => pc.Replaying? && pc.rowSeen && pc.rec.name in s.trees
    case ReplayOk => pc.Replaying? && pc.rowSeen && pc.treeSeen
    case ReplayDurable(id) => pc.Idle? && id in s.results
    case StoreRefusal(id) => pc.Idle? && id !in s.results
  }

  predicate Enabled(c: Config, s: State, a: Action) {
    match a
    case By(t, move) => MoveEnabled(c, s, t, move)
    case Arm(step) => ArmEnabled(c, s, step)
    case BeginTurn(k, name, _) => k !in s.turns && name !in s.trees
    case EndTurn(k, _) => k in s.turns
    case ForeignRow(l, _) => l !in s.used
    case ExpireResult(_) => true
    case Tick(at) => s.now <= at
    case Crash => true
  }

  function Go(s: State, t: Thread, pc: PC): State {
    s.(pcs := s.pcs[t := pc])
  }

  /** Opening makes the lock file if there is none. */
  function Opened(s: State, t: Thread, l: LeaseId, job: Job, stage: Stage): State {
    s.(pcs := s.pcs[t := Opening(job, l, stage, File(s, l))], used := s.used + {l})
  }

  /** Locking a file that was unlinked since it was opened succeeds and excludes nobody. */
  function FlockNext(s: State, t: Thread): State
    requires Pc(s, t).Opening?
  {
    var pc := Pc(s, t);
    s.(pcs := s.pcs[t := In(pc.aim, pc.l, pc.entry)],
       locks := if pc.file == File(s, pc.l) then s.locks[pc.l := t] else s.locks)
  }

  /** The lock is released only if this thread still owns the lock file. */
  function Unlock(s: State, t: Thread, l: LeaseId): map<LeaseId, Thread> {
    if l in s.locks && s.locks[l] == t then s.locks - {l} else s.locks
  }

  function Closed(rec: Record, now: int): Record {
    rec.(phase := Tombstoned(now))
  }

  function AfterLeave(pc: PC): PC {
    if pc.In? && pc.job.LanePass? then Between(pc.job.snap)
    else if pc.Opening? && pc.aim.LanePass? then Between(pc.aim.snap)
    else Idle
  }

  function LeaveNext(s: State, t: Thread, dropTree: bool): State {
    var pc := Pc(s, t);
    s.(pcs := s.pcs[t := AfterLeave(pc)],
       locks := if pc.In? then Unlock(s, t, pc.l) else s.locks,
       trees := if pc.In? && dropTree && pc.stage.Treed? then s.trees - {pc.stage.req.name} else s.trees)
  }

  function MoveNext(c: Config, s: State, t: Thread, move: Move): State
    requires MoveEnabled(c, s, t, move)
  {
    var pc := Pc(s, t);
    match move
    case ReadRows => Go(s, t, RowsRead(s.rows))
    case ReadRecords => Go(s, t, Between(Snapshot(pc.rows, s.records)))
    case EndPass => Go(s, t, Idle)
    case OpenForPass(l, why) => Opened(s, t, l, LanePass(pc.snap), Hold(why))
    case OpenForSweep(l) => Opened(s, t, l, Sweep, Hold(Direct))
    case Admit(l, sender) => Go(s, t, Admitted(l, s.records[l]))
    case OpenForWork(l, sender) => Opened(s, t, l, Working(sender), Hold(Direct))
    case OpenForRelease(l, sender) => Opened(s, t, l, Releasing(sender), Hold(Direct))
    case Flock => FlockNext(s, t)
    case Load => Go(s, t, pc.(stage := Open(s.records[pc.l])))
    case Serve => Go(s, t, pc.(stage := Serving(s.records[pc.l])))
    case FindMissing => Go(s, t, pc.(stage := Removed(pc.stage.rec, false)))
    case Recheck => Go(s, t, pc.(stage := Doomed(pc.stage.rec, pc.l in s.rows)))
    case Reclaim(ok) =>
      var live := pc.job.Releasing? || (pc.stage.Doomed? && pc.stage.live);
      Go(s, t, pc.(stage := Removed(pc.stage.rec, live)))
      .(trees := if ok then s.trees - {pc.stage.rec.name} else s.trees)
    case Tombstone =>
      var live := pc.stage.Removed? && pc.stage.live;
      Go(s, t, pc.(stage := Shut(live))).(records := s.records[pc.l := Closed(pc.stage.rec, s.now)])
    case Retire => Go(s, t, pc.(stage := Shut(false))).(rows := s.rows - {pc.l})
    case FindAged(l) => Go(s, t, Collecting(l))
    case DropRecord => Go(s, t, Dropped(pc.l)).(records := s.records - {pc.l}, pruned := s.pruned + {pc.l})
    case DropLock =>
      s.(pcs := s.pcs[t := Idle], locks := s.locks - {pc.l}, unlinks := s.unlinks[pc.l := File(s, pc.l) + 1])
    case Leave(dropTree) => LeaveNext(s, t, dropTree)
  }

  function ArmNext(c: Config, s: State, step: ArmStep): State
    requires ArmEnabled(c, s, step)
  {
    var pc := Pc(s, Inbox);
    match step
    case FindNone(req) => Go(s, Inbox, ArmFresh(req))
    case FindPrior(req, l) =>
      var armed := s.records[l].phase.Armed?;
      s.(pcs := if armed then s.pcs[Inbox := Replaying(l, s.records[l], false, false)] else s.pcs,
         results := if armed then s.results else s.results[req.id := Refused])
    case CheckQuota => Go(s, Inbox, ArmReady(pc.req))
    case Mint(l) => Opened(s, Inbox, l, Arming, Minted(pc.req))
    case CreateTree =>
      Go(s, Inbox, pc.(stage := Treed(pc.stage.req))).(trees := s.trees + {pc.stage.req.name})
    case CreateRecord =>
      var rec := NewRecord(c, s.now, pc.stage.req);
      Go(s, Inbox, pc.(stage := Open(rec)))
      .(records := s.records[pc.l := rec], born := s.born[pc.l := Some(rec.request)])
    case ArmRow(outcome) =>
      Go(s, Inbox, pc.(stage := if outcome.RowWritten? then Rowed(pc.stage.rec) else Undo(pc.stage.rec)))
      .(rows := if outcome.RowFailed? then s.rows else s.rows[pc.l := c.boundLane])
    case UndoRow => s.(rows := s.rows - {pc.l})
    case StoreOk =>
      Go(s, Inbox, pc.(stage := Stored(pc.stage.rec)))
      .(results := s.results[pc.stage.rec.request := ArmOk(pc.l)])
    case ReplyOk => s
    case ReplayRow => Go(s, Inbox, pc.(rowSeen := true))
    case ReplayTree => Go(s, Inbox, pc.(treeSeen := true))
    case ReplayOk => Go(s, Inbox, Idle).(results := s.results[pc.rec.request := ArmOk(pc.l)])
    case ReplayDurable(id) => s
    case StoreRefusal(id) => s.(results := s.results[id := Refused])
  }

  function Next(c: Config, s: State, a: Action): State
    requires Enabled(c, s, a)
  {
    match a
    case By(t, move) => MoveNext(c, s, t, move)
    case Arm(step) => ArmNext(c, s, step)
    case BeginTurn(k, name, auto) =>
      s.(trees := s.trees + {name}, turns := if auto then s.turns[k := name] else s.turns)
    case EndTurn(k, drop) =>
      s.(turns := s.turns - {k}, trees := if drop then s.trees - {s.turns[k]} else s.trees)
    case ForeignRow(l, lane) =>
      s.(rows := s.rows[l := lane], used := s.used + {l}, born := s.born[l := None])
    case ExpireResult(id) => s.(results := s.results - {id})
    case Tick(at) => s.(now := at)
    case Crash => s.(pcs := map[], locks := map[], turns := map[])
  }

  // ---------------------------------------------------------------------------
  // Invariant
  // ---------------------------------------------------------------------------

  /** Everything the stores say about one lease. */
  datatype Slot = Slot(
    record: Option<Record>, row: Option<Lane>, holder: Option<Thread>,
    origin: Option<Option<RequestId>>, used: bool, pruned: bool, file: nat)
  {
    predicate Born() { origin.Some? }

    predicate Armed() { record.Some? && record.value.phase.Armed? }

    /** The lease had a record or a row once and has no record now: it never gets one again. */
    predicate Dead() { Born() && record.None? }

    /** Tombstoned, or collected already. */
    predicate Collectable() { Born() && !Armed() && (record.Some? || pruned) }

    /** The record, as long as it is armed, is that of the sender. */
    predicate OwnedBy(sender: Sender) { Born() && (Armed() ==> record.value.sender == sender) }

    predicate HeldBy(t: Thread) { holder == Some(t) }

    predicate RowMatches(c: Config, rec: Record) { row == Some(rec.lane) && c.ownConsumer }

    /** `t` is inside the critical section and the record on disk is the armed `rec`. */
    predicate Pinned(t: Thread, rec: Record) { HeldBy(t) && record == Some(rec) && rec.phase.Armed? }
  }

  function Lookup<V>(m: map<LeaseId, V>, l: LeaseId): Option<V> {
    if l in m then Some(m[l]) else None
  }

  function At(s: State, l: LeaseId): Slot {
    Slot(Lookup(s.records, l), Lookup(s.rows, l), Lookup(s.locks, l), Lookup(s.born, l),
         l in s.used, l in s.pruned, File(s, l))
  }

  predicate StageOk(c: Config, v: Slot, t: Thread, job: Job, stage: Stage) {
    match stage
    case Hold(why) =>
      && !job.Arming?
      && (v.HeldBy(t) || v.pruned)
      && (why.OrphanRow? ==> v.Dead())
      && (why.TombstonedRow? ==> v.Born() && !v.Armed())
      && (job.Working? ==> v.OwnedBy(job.sender))
    case Minted(_) => job.Arming? && v.HeldBy(t) && !v.Born()
    case Treed(_) => job.Arming? && v.HeldBy(t) && !v.Born()
    case Open(rec) =>
      v.Pinned(t, rec) && (job.Arming? ==> rec.lane == c.lane) && (job.Working? ==> rec.sender == job.sender)
    case Serving(rec) => v.Pinned(t, rec) && job.Working?
    case Doomed(rec, _) => v.Pinned(t, rec) && job.LanePass? && !v.RowMatches(c, rec)
    case Rowed(rec) => v.Pinned(t, rec) && job.Arming? && v.RowMatches(c, rec)
    case Stored(rec) => v.Pinned(t, rec) && job.Arming? && v.RowMatches(c, rec)
    case Undo(rec) => v.Pinned(t, rec) && job.Arming?
    case Removed(rec, _) => v.Pinned(t, rec) && (job.LanePass? ==> !v.RowMatches(c, rec))
    case Shut(_) => (v.HeldBy(t) || v.pruned) && v.Born() && !v.Armed()
  }

  /** A thread between opening a lock file and locking it; only a collected lease's file is unlinked. */
  predicate OpeningOk(v: Slot, t: Thread, job: Job, stage: Stage, file: nat) {
    && v.used && file <= v.file && (file < v.file ==> v.pruned)
    && (stage.Minted? ==> job.Arming? && t.Inbox? && !v.Born())
    && (!stage.Minted? ==> stage.Hold? && !job.Arming?)
    && (stage.Hold? && stage.why.OrphanRow? ==> v.Dead())
    && (stage.Hold? && stage.why.TombstonedRow? ==> v.Born() && !v.Armed())
    && (job.Working? ==> v.OwnedBy(job.sender))
  }

  ghost predicate SnapOk(s: State, snap: Snapshot) {
    && (forall l | l in snap.rows :: At(s, l).Born() && (l !in snap.records ==> At(s, l).Dead()))
    && (forall l | l in snap.records && snap.records[l].phase.Tombstoned? ::
          At(s, l).Born() && !At(s, l).Armed())
  }

  ghost predicate PcOk(c: Config, s: State, t: Thread, pc: PC) {
    match pc
    case Idle => true
    case RowsRead(rows) => forall l | l in rows :: At(s, l).Born()
    case Between(snap) => SnapOk(s, snap)
    case ArmFresh(_) => t.Inbox?
    case ArmReady(_) => t.Inbox?
    case Replaying(l, rec, rowSeen, _) =>
      && t.Inbox? && At(s, l).origin == Some(Some(rec.request))
      && (At(s, l).Armed() ==> At(s, l).record.value == rec && (rowSeen ==> At(s, l).RowMatches(c, rec)))
    case Admitted(l, rec) => At(s, l).OwnedBy(rec.sender)
    case Collecting(l) => At(s, l).Collectable()
    case Dropped(l) => At(s, l).pruned
    case Opening(job, l, stage, file) =>
      OpeningOk(At(s, l), t, job, stage, file) && (job.LanePass? ==> SnapOk(s, job.snap))
    case In(job, l, stage) =>
      && StageOk(c, At(s, l), t, job, stage)
      && (job.Arming? ==> t.Inbox?)
      && (job.LanePass? ==> SnapOk(s, job.snap))
  }

  predicate SlotOk(v: Slot) {
    && (v.record.Some? ==> v.origin == Some(Some(v.record.value.request)))
    && (v.row.Some? ==> v.Born())
    && (v.Born() || v.holder.Some? ==> v.used)
    && (v.Born() && v.origin.value.Some? ==> v.record.Some? || v.pruned)
    && (v.pruned ==> v.Dead())
  }

  ghost predicate StoresOk(s: State) {
    forall l :: SlotOk(At(s, l))
  }

  ghost predicate Inv(c: Config, s: State) {
    StoresOk(s) && forall t :: PcOk(c, s, t, Pc(s, t))
  }

  // ---------------------------------------------------------------------------
  // What durable results and the books say
  // ---------------------------------------------------------------------------

  /** The inbox thread is inside `l` for an arm whose ok result is not stored. */
  predicate Unfinished(pc: PC, l: LeaseId) {
    || (pc.In? && pc.l == l && pc.job.Arming? && !pc.stage.Stored?)
    || (pc.Opening? && pc.l == l && pc.aim.Arming?)
  }

  /** A durable ok for a request names the lease armed for it; if that lease is still armed its row matches. */
  predicate ResultOk(c: Config, s: State, id: RequestId, l: LeaseId) {
    var v := At(s, l);
    && v.origin == Some(Some(id))
    && (v.Armed() ==> v.RowMatches(c, v.record.value))
    && !Unfinished(Pc(s, Inbox), l)
  }

  ghost predicate ResultsOk(c: Config, s: State) {
    forall id | id in s.results && s.results[id].ArmOk? :: ResultOk(c, s, id, s.results[id].l)
  }

  /** The arm request the inbox thread is still going to record a lease for. */
  function Pending(pc: PC): Option<ArmRequest> {
    match pc
    case ArmFresh(req) => Some(req)
    case ArmReady(req) => Some(req)
    case Opening(_, _, Minted(req), _) => Some(req)
    case In(_, _, Minted(req)) => Some(req)
    case In(_, _, Treed(req)) => Some(req)
    case _ => None
  }

  ghost predicate Books(c: Config, s: State) {
    && (forall l, m | l in s.records && m in s.records && s.records[l].request == s.records[m].request :: l == m)
    && |ArmedSet(s.records)| <= c.maxArmed
    && (forall x :: |ArmedBy(s.records, x)| <= c.maxPerSender)
    && var pc := Pc(s, Inbox);
       Pending(pc).Some? ==>
         NoRecordFor(s, Pending(pc).value.id) && (!pc.ArmFresh? ==> QuotaLeft(c, s, Pending(pc).value.sender))
  }

  // ---------------------------------------------------------------------------
  // Runs
  // ---------------------------------------------------------------------------

  /** A boot: no thread is running and no lock is held, the stores hold whatever was left behind. */
  ghost predicate Init(c: Config, s: State) {
    s.pcs == map[] && s.locks == map[] && s.turns == map[] && StoresOk(s) && Books(c, s) && ResultsOk(c, s)
  }

  ghost predicate StepAt(c: Config, states: seq<State>, acts: seq<Action>, i: nat) {
    && i < |acts| && |states| == |acts| + 1
    && Enabled(c, states[i], acts[i]) && states[i + 1] == Next(c, states[i], acts[i])
  }

  ghost predicate IsRun(c: Config, states: seq<State>, acts: seq<Action>) {
    && |states| == |acts| + 1
    && Init(c, states[0])
    && forall i | 0 <= i < |acts| :: StepAt(c, states, acts, i)
  }
}
