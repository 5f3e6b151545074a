/**
  What durable results say, one lease per arm request, and the quotas, over every run of the lease
  protocol.
 */
module LeaseBooks {
  import opened Common
  import opened LeaseProtocol
  import opened LeaseInvariant

  // ---------------------------------------------------------------------------
  // What a durable ok result says
  // ---------------------------------------------------------------------------

  /** A step that stores no result, writes no row of an armed lease and starts no arm on `l`. */
  lemma ResultKeeps(c: Config, s: State, s': State, t: Thread, m: LeaseId, id: RequestId, l: LeaseId)
    requires ResultOk(c, s, id, l) && SlotOk(At(s, l)) && TouchesOnly(s, s', t, m)
    requires t.Inbox? && l == m && At(s', l).Armed() ==> At(s', l).row == At(s, l).row
    requires Unfinished(Pc(s', Inbox), l) ==> Unfinished(Pc(s, Inbox), l)
    ensures ResultOk(c, s', id, l)
  {
    if l == m {
      SlotFacts(At(s, l), At(s', l), t);
    } else {
      assert At(s', l) == At(s, l);
    }
  }

  lemma MoveRows(c: Config, s: State, t: Thread, move: Move)
    requires MoveEnabled(c, s, t, move)
    ensures var s' := MoveNext(c, s, t, move);
      s'.results == s.results && s'.rows == if move.Retire? then s.rows - {Pc(s, t).l} else s.rows
  {
    if Aside(move) {
      MoveAside(c, s, t, move);
    } else {
      match move case _ =>
    }
  }

  lemma MoveUnfinished(c: Config, s: State, t: Thread, move: Move, l: LeaseId)
    requires MoveEnabled(c, s, t, move)
    ensures Unfinished(Pc(MoveNext(c, s, t, move), Inbox), l) ==> Unfinished(Pc(s, Inbox), l)
  {
    match move case _ =>
  }

  /** A row is retired only of a lease that is not armed. */
  lemma RetireRows(c: Config, s: State, t: Thread, move: Move, l: LeaseId)
    requires MoveEnabled(c, s, t, move) && PcOk(c, s, t, Pc(s, t)) && At(MoveNext(c, s, t, move), l).Armed()
    ensures At(MoveNext(c, s, t, move), l).row == At(s, l).row
  {
    MoveRows(c, s, t, move);
  }

  lemma MoveKeepsResults(c: Config, s: State, t: Thread, move: Move)
    requires Inv(c, s) && ResultsOk(c, s) && MoveEnabled(c, s, t, move)
    ensures ResultsOk(c, MoveNext(c, s, t, move))
  {
    var s' := MoveNext(c, s, t, move);
    MoveTouches(c, s, t, move);
    MoveRows(c, s, t, move);
    forall id | id in s'.results && s'.results[id].ArmOk? ensures ResultOk(c, s', id, s'.results[id].l) {
      var l := s.results[id].l;
      assert ResultOk(c, s, id, l) && SlotOk(At(s, l));
      MoveUnfinished(c, s, t, move, l);
      if At(s', l).Armed() { RetireRows(c, s, t, move, l); }
      ResultKeeps(c, s, s', t, MoveTarget(Pc(s, t), move), id, l);
    }
  }

  /** The one new result an arm step may store, if any. */
  function NewOk(pc: PC, step: ArmStep): Option<(RequestId, LeaseId)> {
    if step.StoreOk? && pc.In? && pc.stage.Rowed? then Some((pc.stage.rec.request, pc.l))
    else if step.ReplayOk? && pc.Replaying? then Some((pc.rec.request, pc.l))
    else None
  }

  predicate StoresResult(step: ArmStep) {
    step.FindPrior? || step.StoreOk? || step.ReplayOk? || step.StoreRefusal?
  }

  lemma ArmKeepsOtherResults(c: Config, s: State, step: ArmStep)
    requires ArmEnabled(c, s, step) && !StoresResult(step)
    ensures ArmNext(c, s, step).results == s.results
  {
    match step case _ =>
  }

  lemma ArmResults(c: Config, s: State, step: ArmStep, id: RequestId)
    requires ArmEnabled(c, s, step)
    ensures var s' := ArmNext(c, s, step);
      id in s'.results && s'.results[id].ArmOk? ==>
        || (id in s.results && s'.results[id] == s.results[id])
        || NewOk(Pc(s, Inbox), step) == Some((id, s'.results[id].l))
  {
    if !StoresResult(step) {
      ArmKeepsOtherResults(c, s, step);
    }
  }

  /** Arm steps write rows and start arms only on leases no result names. */
  lemma ArmRows(c: Config, s: State, step: ArmStep, l: LeaseId)
    requires ArmEnabled(c, s, step) && !Unfinished(Pc(s, Inbox), l) && l in s.used
    ensures var s' := ArmNext(c, s, step);
      At(s', l).row == At(s, l).row && !Unfinished(Pc(s', Inbox), l)
  {
    match step case _ =>
  }

  lemma NewOkIsTrue(c: Config, s: State, step: ArmStep)
    requires Inv(c, s) && ArmEnabled(c, s, step) && NewOk(Pc(s, Inbox), step).Some?
    ensures var (id, l) := NewOk(Pc(s, Inbox), step).value; ResultOk(c, ArmNext(c, s, step), id, l)
  {
    assert PcOk(c, s, Inbox, Pc(s, Inbox)) && SlotOk(At(s, Pc(s, Inbox).l));
    assert At(ArmNext(c, s, step), Pc(s, Inbox).l) == At(s, Pc(s, Inbox).l);
  }

  lemma ArmKeepsResults(c: Config, s: State, step: ArmStep)
    requires Inv(c, s) && ResultsOk(c, s) && ArmEnabled(c, s, step)
    ensures ResultsOk(c, ArmNext(c, s, step))
  {
    var s' := ArmNext(c, s, step);
    ArmTouches(c, s, step);
    forall id | id in s'.results && s'.results[id].ArmOk? ensures ResultOk(c, s', id, s'.results[id].l) {
      ArmResults(c, s, step, id);
      if NewOk(Pc(s, Inbox), step) == Some((id, s'.results[id].l)) {
        NewOkIsTrue(c, s, step);
      } else {
        var l := s.results[id].l;
        assert ResultOk(c, s, id, l) && SlotOk(At(s, l));
        ArmRows(c, s, step, l);
        ResultKeeps(c, s, s', Inbox, ArmTarget(Pc(s, Inbox), step), id, l);
      }
    }
  }

  lemma StepKeepsResults(c: Config, s: State, a: Action)
    requires Inv(c, s) && ResultsOk(c, s) && Enabled(c, s, a)
    ensures ResultsOk(c, Next(c, s, a))
  {
    if a.By? {
      MoveKeepsResults(c, s, a.t, a.move);
    } else if a.Arm? {
      ArmKeepsResults(c, s, a.step);
    } else {
      var s' := Next(c, s, a);
      forall id | id in s'.results && s'.results[id].ArmOk? ensures ResultOk(c, s', id, s'.results[id].l) {
        var l := s.results[id].l;
        assert ResultOk(c, s, id, l) && SlotOk(At(s, l));
        assert At(s', l).(holder := None) == At(s, l).(holder := None);
      }
    }
  }

  lemma {:induction false} RunKeepsResults(c: Config, states: seq<State>, acts: seq<Action>, i: nat)
    requires IsRun(c, states, acts) && i <= |acts|
    ensures ResultsOk(c, states[i])
  {
    if i > 0 {
      RunKeepsResults(c, states, acts, i - 1);
      RunKeepsInv(c, states, acts, i - 1);
      assert StepAt(c, states, acts, i - 1);
      StepKeepsResults(c, states[i - 1], acts[i - 1]);
    }
  }

  // ---------------------------------------------------------------------------
  // One lease per arm request, quotas
  // ---------------------------------------------------------------------------

  predicate Shrinks(s: State, s': State) {
    forall l | l in s'.records ::
      && l in s.records
      && s'.records[l].request == s.records[l].request
      && (s'.records[l].phase.Armed? ==> s'.records[l] == s.records[l])
  }

  lemma MoveShrinks(c: Config, s: State, t: Thread, move: Move)
    requires MoveEnabled(c, s, t, move) && PcOk(c, s, t, Pc(s, t))
    ensures Shrinks(s, MoveNext(c, s, t, move))
  {
  }

  lemma ArmShrinks(c: Config, s: State, step: ArmStep)
    requires ArmEnabled(c, s, step) && !step.CreateRecord?
    ensures Shrinks(s, ArmNext(c, s, step))
  {
  }

  /** No step but the publication of a new record adds a record or re-arms one. */
  lemma OnlyCreateGrows(c: Config, s: State, a: Action)
    requires Inv(c, s) && Enabled(c, s, a) && a != Arm(CreateRecord)
    ensures Shrinks(s, Next(c, s, a))
  {
    match a
    case By(t, move) => MoveShrinks(c, s, t, move);
    case Arm(step) => ArmShrinks(c, s, step);
    case _ =>
  }

  lemma SubsetSize(a: set<LeaseId>, b: set<LeaseId>)
    requires a <= b
    ensures |a| <= |b|
  {
    assert b == a + (b - a);
  }

  lemma ShrinksCounts(s: State, s': State)
    requires Shrinks(s, s')
    ensures |ArmedSet(s'.records)| <= |ArmedSet(s.records)|
    ensures forall x :: |ArmedBy(s'.records, x)| <= |ArmedBy(s.records, x)|
  {
    SubsetSize(ArmedSet(s'.records), ArmedSet(s.records));
    forall x ensures |ArmedBy(s'.records, x)| <= |ArmedBy(s.records, x)| {
      SubsetSize(ArmedBy(s'.records, x), ArmedBy(s.records, x));
    }
  }

  lemma ShrinkKeepsBooks(c: Config, s: State, s': State)
    requires Books(c, s) && Shrinks(s, s')
    requires PendingStep(c, s, Pc(s', Inbox))
    ensures Books(c, s')
  {
    ShrinksCounts(s, s');
  }

  lemma CreateCounts(records: map<LeaseId, Record>, l: LeaseId, rec: Record, x: Sender)
    requires l !in records && rec.phase.Armed?
    ensures |ArmedSet(records[l := rec])| == |ArmedSet(records)| + 1
    ensures |ArmedBy(records[l := rec], x)| == |ArmedBy(records, x)| + if x == rec.sender then 1 else 0
  {
    assert ArmedSet(records[l := rec]) == ArmedSet(records) + {l};
    if x == rec.sender {
      assert ArmedBy(records[l := rec], x) == ArmedBy(records, x) + {l};
    } else {
      assert ArmedBy(records[l := rec], x) == ArmedBy(records, x);
    }
  }

  lemma CreateKeepsBooks(c: Config, s: State)
    requires Books(c, s) && ArmEnabled(c, s, CreateRecord)
    ensures Books(c, ArmNext(c, s, CreateRecord))
  {
    var pc, s' := Pc(s, Inbox), ArmNext(c, s, CreateRecord);
    CreateCounts(s.records, pc.l, NewRecord(c, s.now, pc.stage.req), pc.stage.req.sender);
    forall x ensures |ArmedBy(s'.records, x)| <= c.maxPerSender {
      CreateCounts(s.records, pc.l, NewRecord(c, s.now, pc.stage.req), x);
    }
  }

  /** How the inbox thread's open arm request may change in one step. */
  predicate PendingStep(c: Config, s: State, pc': PC) {
    var pc := Pc(s, Inbox);
    || Pending(pc') == None
    || (Pending(pc') == Pending(pc) && (pc.ArmFresh? ==> pc'.ArmFresh? || QuotaLeft(c, s, pc.req.sender)))
    || (pc'.ArmFresh? && NoRecordFor(s, pc'.req.id))
  }

  lemma MovePending(c: Config, s: State, t: Thread, move: Move)
    requires MoveEnabled(c, s, t, move)
    ensures PendingStep(c, s, Pc(MoveNext(c, s, t, move), Inbox))
  {
    match move case _ =>
  }

  lemma ArmPending(c: Config, s: State, step: ArmStep)
    requires ArmEnabled(c, s, step)
    ensures PendingStep(c, s, Pc(ArmNext(c, s, step), Inbox))
  {
  }

  lemma StepKeepsBooks(c: Config, s: State, a: Action)
    requires Inv(c, s) && Books(c, s) && Enabled(c, s, a)
    ensures Books(c, Next(c, s, a))
  {
    if a == Arm(CreateRecord) {
      CreateKeepsBooks(c, s);
    } else {
      OnlyCreateGrows(c, s, a);
      match a {
        case By(t, move) => MovePending(c, s, t, move);
        case Arm(step) => ArmPending(c, s, step);
        case _ =>
      }
      ShrinkKeepsBooks(c, s, Next(c, s, a));
    }
  }

  lemma {:induction false} RunKeepsBooks(c: Config, states: seq<State>, acts: seq<Action>, i: nat)
    requires IsRun(c, states, acts) && i <= |acts|
    ensures Books(c, states[i])
  {
    if i > 0 {
      RunKeepsBooks(c, states, acts, i - 1);
      RunKeepsInv(c, states, acts, i - 1);
      assert StepAt(c, states, acts, i - 1);
      StepKeepsBooks(c, states[i - 1], acts[i - 1]);
    }
  }

  /** Over every run of deliveries, redeliveries and crashes: armed leases stay within both quotas;
      no two records on disk carry one arm request id; and of two leases ever recorded for one
      request id, one's tombstone has been collected. */
  lemma OneLeasePerRequest(c: Config, states: seq<State>, acts: seq<Action>, i: nat, l: LeaseId, m: LeaseId)
    requires IsRun(c, states, acts) && i <= |acts|
    ensures |ArmedSet(states[i].records)| <= c.maxArmed
    ensures forall x :: |ArmedBy(states[i].records, x)| <= c.maxPerSender
    ensures
      var s := states[i];
      l in s.born && m in s.born && s.born[l].Some? && s.born[l] == s.born[m] && l != m
      ==> l in s.pruned || m in s.pruned
  {
    RunKeepsBooks(c, states, acts, i);
    RunKeepsInv(c, states, acts, i);
    assert SlotOk(At(states[i], l)) && SlotOk(At(states[i], m));
  }
}
