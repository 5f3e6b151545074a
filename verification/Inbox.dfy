/**
  The reliable inbox: at-least-once delivery through a processing list.

  Several daemons may overlap (a deposed one keeps its threads until it notices). Each daemon
  recovers parked bodies at boot, then parks one body at a time, claims it with its boot token,
  handles it on the inbox loop or hands it to a worker, and whoever owns it acknowledges it. A crash
  drops a daemon's threads between any two steps.
 */
module Inbox {
  import opened Common

  type Body = nat
  type Token = nat

  /** Where the inbox loop stands; it is one thread. */
  datatype Loop =
    | Recovering(peeked: Option<Body>)
    | Ready
    | Popped(body: Body)
    | Handling(body: Body)
    | Ended(body: Body)

  /** `workers` run a body; `finished` ended theirs and have not acknowledged it yet. */
  datatype Daemon = Daemon(loop: Loop, workers: multiset<Body>, finished: multiset<Body>)

  /** `delivered`, `ended` and `acked` are history: bodies pushed, handlings that came to their end
      (with the daemon that ran them), and acknowledgements that took a body off the processing list. */
  datatype State = State(
    inbox: seq<Body>,
    processing: seq<Body>,
    claims: map<Body, Token>,
    daemons: map<Token, Daemon>,
    delivered: multiset<Body>,
    ended: seq<(Token, Body)>,
    acked: seq<(Token, Body)>)

  /** `LetGo` is every way the loop moves on without acknowledging: recovery gives up, the claim
      write fails, shutdown finds a parked body, the acknowledgement fails. */
  datatype LoopStep = Peek | Recover | Park | Claim | HandOff | End | Ack | LetGo

  datatype WorkerStep = WorkerEnd(body: Body) | WorkerAck(body: Body) | WorkerLetGo(body: Body)

  datatype Action =
    | Deliver(body: Body)
    | Boot(t: Token)
    | OnLoop(t: Token, step: LoopStep)
    | OnWorker(t: Token, work: WorkerStep)
    | ExpireClaim(body: Body)
    | Crash(t: Token)

  // ---------------------------------------------------------------------------
  // Redis scripts
  // ---------------------------------------------------------------------------

  /** The position of the first occurrence. */
  function FirstIndex(s: seq<Body>, b: Body): (i: nat)
    requires b in s
    ensures i < |s| && s[i] == b && forall k | 0 <= k < i :: s[k] != b
  {
    if s[0] == b then 0 else 1 + FirstIndex(s[1..], b)
  }

  /** LREM with count 1: drop the first occurrence. */
  function RemoveFirst(s: seq<Body>, b: Body): (r: seq<Body>)
    ensures multiset(r) == multiset(s) - multiset{b}
  {
    if b !in s then
      assert b !in multiset(s);
      s
    else
      var i := FirstIndex(s, b);
      assert s == s[..i] + [b] + s[i + 1..];
      s[..i] + s[i + 1..]
  }

  /** The owner-fenced acknowledgement: only the current claimant removes the body. */
  function Acknowledge(s: State, t: Token, b: Body): State {
    if b in s.claims && s.claims[b] == t then
      s.(processing := RemoveFirst(s.processing, b),
         claims := s.claims - {b},
         acked := if b in s.processing then s.acked + [(t, b)] else s.acked)
    else s
  }

  /** Moves the right end of the processing list to the front of the inbox, if it is still `b`. */
  function RecoverValidated(s: State, b: Body): State {
    var n := |s.processing|;
    if n > 0 && s.processing[n - 1] == b then
      s.(processing := s.processing[..n - 1], inbox := [b] + s.inbox, claims := s.claims - {b})
    else s
  }

  // ---------------------------------------------------------------------------
  // Steps
  // ---------------------------------------------------------------------------

  predicate LoopEnabled(s: State, d: Daemon, step: LoopStep) {
    match step
    case Peek => d.loop == Recovering(None)
    case Recover => d.loop.Recovering? && d.loop.peeked.Some?
    case Park => d.loop.Ready? && s.inbox != []
    case Claim => d.loop.Popped?
    case HandOff => d.loop.Handling?
    case End => d.loop.Handling?
    case Ack => d.loop.Ended?
    case LetGo => true
  }

  predicate WorkerEnabled(d: Daemon, work: WorkerStep) {
    if work.WorkerEnd? then work.body in d.workers else work.body in d.finished
  }

  predicate Enabled(s: State, a: Action) {
    match a
    case Deliver(_) => true
    case Boot(t) => t !in s.daemons
    case OnLoop(t, step) => t in s.daemons && LoopEnabled(s, s.daemons[t], step)
    case OnWorker(t, work) => t in s.daemons && WorkerEnabled(s.daemons[t], work)
    case ExpireClaim(_) => true
    case Crash(t) => t in s.daemons
  }

  function Put(s: State, t: Token, d: Daemon): State {
    s.(daemons := s.daemons[t := d])
  }

  function LoopNext(s: State, t: Token, step: LoopStep): State
    requires t in s.daemons && LoopEnabled(s, s.daemons[t], step)
  {
    var d := s.daemons[t];
    match step
    case Peek =>
      if s.processing == [] then Put(s, t, d.(loop := Ready))
      else Put(s, t, d.(loop := Recovering(Some(s.processing[|s.processing| - 1]))))
    case Recover => Put(RecoverValidated(s, d.loop.peeked.value), t, d.(loop := Recovering(None)))
    case Park =>
      Put(s, t, d.(loop := Popped(s.inbox[0]))).(inbox := s.inbox[1..], processing := s.processing + [s.inbox[0]])
    case Claim => Put(s, t, d.(loop := Handling(d.loop.body))).(claims := s.claims[d.loop.body := t])
    case HandOff => Put(s, t, d.(loop := Ready, workers := d.workers + multiset{d.loop.body}))
    case End => Put(s, t, d.(loop := Ended(d.loop.body))).(ended := s.ended + [(t, d.loop.body)])
    case Ack => Put(Acknowledge(s, t, d.loop.body), t, d.(loop := Ready))
    case LetGo => Put(s, t, d.(loop := Ready))
  }

  function WorkerNext(s: State, t: Token, work: WorkerStep): State
    requires t in s.daemons && WorkerEnabled(s.daemons[t], work)
  {
    var d, b := s.daemons[t], multiset{work.body};
    match work
    case WorkerEnd(body) =>
      Put(s, t, d.(workers := d.workers - b, finished := d.finished + b)).(ended := s.ended + [(t, body)])
    case WorkerAck(body) => Put(Acknowledge(s, t, body), t, d.(finished := d.finished - b))
    case WorkerLetGo(_) => Put(s, t, d.(finished := d.finished - b))
  }

  function Next(s: State, a: Action): State
    requires Enabled(s, a)
  {
    match a
    case Deliver(b) => s.(inbox := s.inbox + [b], delivered := s.delivered + multiset{b})
    case Boot(t) => Put(s, t, Daemon(Recovering(None), multiset{}, multiset{}))
    case OnLoop(t, step) => LoopNext(s, t, step)
    case OnWorker(t, work) => WorkerNext(s, t, work)
    case ExpireClaim(b) => s.(claims := s.claims - {b})
    case Crash(t) => s.(daemons := s.daemons - {t})
  }

  // ---------------------------------------------------------------------------
  // Runs
  // ---------------------------------------------------------------------------

  predicate Init(s: State) {
    s.daemons == map[] && s.ended == [] && s.acked == []
    && s.delivered == multiset(s.inbox) + multiset(s.processing)
  }

  ghost predicate IsRun(states: seq<State>, acts: seq<Action>) {
    && |states| == |acts| + 1
    && Init(states[0])
    && forall i | 0 <= i < |acts| :: Enabled(states[i], acts[i]) && states[i + 1] == Next(states[i], acts[i])
  }

  // ---------------------------------------------------------------------------
  // Nothing is lost, however many daemons overlap
  // ---------------------------------------------------------------------------

  function Bodies(log: seq<(Token, Body)>): seq<Body> {
    seq(|log|, i requires 0 <= i < |log| => log[i].1)
  }

  /** How many handlings of `b` ended in this daemon and are not yet acknowledged or given up. */
  function Unacked(d: Daemon, b: Body): nat {
    d.finished[b] + if d.loop == Ended(b) then 1 else 0
  }

  function Owed(s: State, t: Token, b: Body): nat {
    if t in s.daemons then Unacked(s.daemons[t], b) else 0
  }

  function Logged(log: seq<(Token, Body)>, t: Token, b: Body): nat {
    multiset(log)[(t, b)]
  }

  /** Each delivery is in the inbox, parked, or acknowledged once. */
  ghost predicate Conserved(s: State) {
    s.delivered == multiset(s.inbox) + multiset(s.processing) + multiset(Bodies(s.acked))
  }

  /** Each acknowledgement by a daemon is backed by a handling of that body which ended in it. */
  ghost predicate Backed(s: State) {
    forall t, b :: Logged(s.acked, t, b) + Owed(s, t, b) <= Logged(s.ended, t, b)
  }

  lemma BodiesPush(log: seq<(Token, Body)>, e: (Token, Body))
    ensures Bodies(log + [e]) == Bodies(log) + [e.1]
  {
  }

  lemma AckConserves(s: State, t: Token, b: Body)
    ensures
      var s' := Acknowledge(s, t, b);
      && multiset(s'.inbox) + multiset(s'.processing) + multiset(Bodies(s'.acked))
           == multiset(s.inbox) + multiset(s.processing) + multiset(Bodies(s.acked))
      && s'.ended == s.ended && s'.delivered == s.delivered && s'.daemons == s.daemons
      && (s'.acked == s.acked || s'.acked == s.acked + [(t, b)])
  {
    BodiesPush(s.acked, (t, b));
    if b in s.claims && s.claims[b] == t {
      assert b in s.processing <==> b in multiset(s.processing);
    }
  }

  lemma RecoverConserves(s: State, b: Body)
    ensures
      var s' := RecoverValidated(s, b);
      multiset(s'.inbox) + multiset(s'.processing) == multiset(s.inbox) + multiset(s.processing)
  {
    var n := |s.processing|;
    if n > 0 { assert s.processing == s.processing[..n - 1] + [s.processing[n - 1]]; }
  }

  lemma LoopConserves(s: State, t: Token, step: LoopStep)
    requires Conserved(s) && t in s.daemons && LoopEnabled(s, s.daemons[t], step)
    ensures Conserved(LoopNext(s, t, step))
  {
    var d := s.daemons[t];
    match step
    case Recover => RecoverConserves(s, d.loop.peeked.value);
    case Park => assert s.inbox == [s.inbox[0]] + s.inbox[1..];
    case Ack => AckConserves(s, t, d.loop.body);
    case _ =>
  }

  lemma MinusOne(m: multiset<Body>, x: Body, b: Body)
    ensures (m - multiset{x})[b] == if b == x && m[x] > 0 then m[b] - 1 else m[b]
  {
  }

  lemma Push(log: seq<(Token, Body)>, t: Token, b: Body, u: Token, x: Body)
    ensures Logged(log + [(t, b)], u, x) == Logged(log, u, x) + if u == t && x == b then 1 else 0
  {
  }

  lemma LoopBacked(s: State, t: Token, step: LoopStep, u: Token, b: Body)
    requires t in s.daemons && LoopEnabled(s, s.daemons[t], step)
    requires Logged(s.acked, u, b) + Owed(s, u, b) <= Logged(s.ended, u, b)
    ensures var s' := LoopNext(s, t, step); Logged(s'.acked, u, b) + Owed(s', u, b) <= Logged(s'.ended, u, b)
  {
    match step
    case End => Push(s.ended, t, s.daemons[t].loop.body, u, b);
    case Ack => Push(s.acked, t, s.daemons[t].loop.body, u, b);
    case _ =>
  }

  lemma WorkerEndBacked(s: State, t: Token, x: Body, u: Token, b: Body)
    requires t in s.daemons && x in s.daemons[t].workers
    requires Logged(s.acked, u, b) + Owed(s, u, b) <= Logged(s.ended, u, b)
    ensures var s' := WorkerNext(s, t, WorkerEnd(x)); Logged(s'.acked, u, b) + Owed(s', u, b) <= Logged(s'.ended, u, b)
  {
    Push(s.ended, t, x, u, b);
    var s' := WorkerNext(s, t, WorkerEnd(x));
    if u == t {
      assert s'.daemons[t].finished[b] == s.daemons[t].finished[b] + if x == b then 1 else 0;
    } else {
      assert Owed(s', u, b) == Owed(s, u, b);
    }
  }

  lemma WorkerDoneBacked(s: State, t: Token, work: WorkerStep, u: Token, b: Body)
    requires t in s.daemons && WorkerEnabled(s.daemons[t], work) && !work.WorkerEnd?
    requires Logged(s.acked, u, b) + Owed(s, u, b) <= Logged(s.ended, u, b)
    ensures var s' := WorkerNext(s, t, work); Logged(s'.acked, u, b) + Owed(s', u, b) <= Logged(s'.ended, u, b)
  {
    Push(s.acked, t, work.body, u, b);
    var s' := WorkerNext(s, t, work);
    assert s'.ended == s.ended;
    if u == t {
      MinusOne(s.daemons[t].finished, work.body, b);
      assert Owed(s', t, b) == Owed(s, t, b) - if work.body == b then 1 else 0;
    } else {
      assert Owed(s', u, b) == Owed(s, u, b);
    }
  }

  lemma WorkerBacked(s: State, t: Token, work: WorkerStep, u: Token, b: Body)
    requires t in s.daemons && WorkerEnabled(s.daemons[t], work)
    requires Logged(s.acked, u, b) + Owed(s, u, b) <= Logged(s.ended, u, b)
    ensures var s' := WorkerNext(s, t, work); Logged(s'.acked, u, b) + Owed(s', u, b) <= Logged(s'.ended, u, b)
  {
    if work.WorkerEnd? {
      WorkerEndBacked(s, t, work.body, u, b);
    } else {
      WorkerDoneBacked(s, t, work, u, b);
    }
  }

  lemma ActionConserves(s: State, a: Action)
    requires Conserved(s) && Enabled(s, a)
    ensures Conserved(Next(s, a))
  {
    match a
    case OnLoop(t, step) => LoopConserves(s, t, step);
    case OnWorker(t, work) => if work.WorkerAck? { AckConserves(s, t, work.body); }
    case _ =>
  }

  lemma ActionBacked(s: State, a: Action)
    requires Backed(s) && Enabled(s, a)
    ensures Backed(Next(s, a))
  {
    var s' := Next(s, a);
    forall u, b ensures Logged(s'.acked, u, b) + Owed(s', u, b) <= Logged(s'.ended, u, b) {
      assert Logged(s.acked, u, b) + Owed(s, u, b) <= Logged(s.ended, u, b);
      match a {
        case OnLoop(t, step) => LoopBacked(s, t, step, u, b);
        case OnWorker(t, work) => WorkerBacked(s, t, work, u, b);
        case _ =>
      }
    }
  }

  lemma {:induction false} RunConserves(states: seq<State>, acts: seq<Action>, i: nat)
    requires IsRun(states, acts) && i <= |acts|
    ensures Conserved(states[i]) && Backed(states[i])
  {
    if i == 0 {
      assert Bodies(states[0].acked) == [];
    } else {
      RunConserves(states, acts, i - 1);
      ActionConserves(states[i - 1], acts[i - 1]);
      ActionBacked(states[i - 1], acts[i - 1]);
    }
  }

  /** Dropping entry `k` of a log drops one copy of it, and one copy of its body. */
  lemma DropEntry(log: seq<(Token, Body)>, k: nat)
    requires k < |log|
    ensures multiset(log[..k] + log[k + 1..]) == multiset(log) - multiset{log[k]}
    ensures multiset(Bodies(log)) == multiset(Bodies(log[..k] + log[k + 1..])) + multiset{log[k].1}
  {
    assert log == log[..k] + [log[k]] + log[k + 1..];
    assert Bodies(log) == Bodies(log[..k]) + [log[k].1] + Bodies(log[k + 1..]);
    assert Bodies(log[..k] + log[k + 1..]) == Bodies(log[..k]) + Bodies(log[k + 1..]);
  }

  function Drop(log: seq<(Token, Body)>, k: nat): seq<(Token, Body)>
    requires k < |log|
  {
    log[..k] + log[k + 1..]
  }

  lemma DropBoth(a: seq<(Token, Body)>, b: seq<(Token, Body)>, k: nat)
    requires multiset(a) <= multiset(b) && a != [] && k < |b| && b[k] == a[0]
    ensures multiset(Drop(a, 0)) <= multiset(Drop(b, k))
  {
    DropEntry(a, 0);
    DropEntry(b, k);
  }

  lemma BodiesOfDrop(log: seq<(Token, Body)>, k: nat)
    requires k < |log|
    ensures multiset(Bodies(log)) == multiset(Bodies(Drop(log, k))) + multiset{log[k].1}
  {
    DropEntry(log, k);
  }

  lemma {:induction false} BodiesMonotone(a: seq<(Token, Body)>, b: seq<(Token, Body)>)
    requires multiset(a) <= multiset(b)
    ensures multiset(Bodies(a)) <= multiset(Bodies(b))
    decreases |a|
  {
    if a == [] {
      assert Bodies(a) == [];
    } else {
      assert a[0] in multiset(b);
      var k :| 0 <= k < |b| && b[k] == a[0];
      DropBoth(a, b, k);
      BodiesMonotone(Drop(a, 0), Drop(b, k));
      BodiesOfDrop(a, 0);
      BodiesOfDrop(b, k);
    }
  }

  /** At least once, over every run with any overlap of daemons and any crashes: a delivery that is
      neither in the inbox nor parked was taken off the list by an acknowledgement, and for each body
      at least as many handlings came to their end as deliveries left the lists. */
  lemma NothingIsLost(states: seq<State>, acts: seq<Action>, i: nat)
    requires IsRun(states, acts) && i <= |acts|
    ensures
      var s := states[i];
      && s.delivered == multiset(s.inbox) + multiset(s.processing) + multiset(Bodies(s.acked))
      && multiset(s.acked) <= multiset(s.ended)
      && s.delivered <= multiset(s.inbox) + multiset(s.processing) + multiset(Bodies(s.ended))
  {
    RunConserves(states, acts, i);
    var s := states[i];
    forall e ensures multiset(s.acked)[e] <= multiset(s.ended)[e] {
      assert Logged(s.acked, e.0, e.1) + Owed(s, e.0, e.1) <= Logged(s.ended, e.0, e.1);
    }
    BodiesMonotone(s.acked, s.ended);
  }

  // ---------------------------------------------------------------------------
  // One daemon at a time: what is being handled is still parked
  // ---------------------------------------------------------------------------

  /** How many copies of `b` the daemon's threads still have in hand. */
  function Held(d: Daemon, b: Body): nat {
    d.workers[b] + d.finished[b]
    + if (d.loop.Popped? || d.loop.Handling? || d.loop.Ended?) && d.loop.body == b then 1 else 0
  }

  ghost predicate Sole(s: State, a: Action) {
    a.Boot? ==> s.daemons == map[]
  }

  ghost predicate ParkedFor(s: State, d: Daemon) {
    && (forall b :: Held(d, b) <= multiset(s.processing)[b])
    && (d.loop.Recovering? ==> forall b :: Held(d, b) == 0)
  }

  ghost predicate StillParked(s: State) {
    && (forall t, u | t in s.daemons && u in s.daemons :: t == u)
    && (forall t | t in s.daemons :: ParkedFor(s, s.daemons[t]))
  }

  /** The steps that leave the processing list alone. */
  lemma LoopHeldAside(s: State, t: Token, step: LoopStep, b: Body)
    requires t in s.daemons && LoopEnabled(s, s.daemons[t], step) && !step.Ack? && !step.Park? && !step.Recover?
    requires Held(s.daemons[t], b) <= multiset(s.processing)[b]
    requires s.daemons[t].loop.Recovering? ==> Held(s.daemons[t], b) == 0
    ensures
      var s' := LoopNext(s, t, step);
      && Held(s'.daemons[t], b) <= multiset(s'.processing)[b]
      && (s'.daemons[t].loop.Recovering? ==> Held(s'.daemons[t], b) == 0)
  {
    match step case _ =>
  }

  lemma AckHeld(s: State, t: Token, b: Body)
    requires t in s.daemons && s.daemons[t].loop.Ended? && Held(s.daemons[t], b) <= multiset(s.processing)[b]
    ensures var s' := LoopNext(s, t, Ack); Held(s'.daemons[t], b) <= multiset(s'.processing)[b]
  {
    var d := s.daemons[t];
    MinusOne(multiset(s.processing), d.loop.body, b);
    assert Held(d.(loop := Ready), b) == Held(d, b) - if d.loop.body == b then 1 else 0;
  }

  lemma ParkHeld(s: State, t: Token, b: Body)
    requires t in s.daemons && LoopEnabled(s, s.daemons[t], Park) && Held(s.daemons[t], b) <= multiset(s.processing)[b]
    ensures var s' := LoopNext(s, t, Park); Held(s'.daemons[t], b) <= multiset(s'.processing)[b]
  {
    var d, x := s.daemons[t], s.inbox[0];
    assert Held(d.(loop := Popped(x)), b) == Held(d, b) + if x == b then 1 else 0;
    assert multiset(s.processing + [x])[b] == multiset(s.processing)[b] + if x == b then 1 else 0;
  }

  lemma LoopHeld(s: State, t: Token, step: LoopStep, b: Body)
    requires t in s.daemons && LoopEnabled(s, s.daemons[t], step)
    requires Held(s.daemons[t], b) <= multiset(s.processing)[b]
    requires s.daemons[t].loop.Recovering? ==> Held(s.daemons[t], b) == 0
    ensures
      var s' := LoopNext(s, t, step);
      && Held(s'.daemons[t], b) <= multiset(s'.processing)[b]
      && (s'.daemons[t].loop.Recovering? ==> Held(s'.daemons[t], b) == 0)
  {
    if step.Ack? {
      AckHeld(s, t, b);
    } else if step.Park? {
      ParkHeld(s, t, b);
    } else if step.Recover? {
      assert Held(s.daemons[t].(loop := Recovering(None)), b) == 0;
    } else {
      LoopHeldAside(s, t, step, b);
    }
  }

  lemma LoopParked(s: State, t: Token, step: LoopStep)
    requires t in s.daemons && ParkedFor(s, s.daemons[t]) && LoopEnabled(s, s.daemons[t], step)
    ensures var s' := LoopNext(s, t, step); ParkedFor(s', s'.daemons[t])
  {
    forall b
      ensures var s' := LoopNext(s, t, step); Held(s'.daemons[t], b) <= multiset(s'.processing)[b]
      ensures var s' := LoopNext(s, t, step); s'.daemons[t].loop.Recovering? ==> Held(s'.daemons[t], b) == 0
    {
      assert Held(s.daemons[t], b) <= multiset(s.processing)[b];
      LoopHeld(s, t, step, b);
    }
  }

  lemma WorkerParked(s: State, t: Token, work: WorkerStep)
    requires t in s.daemons && ParkedFor(s, s.daemons[t]) && WorkerEnabled(s.daemons[t], work)
    ensures var s' := WorkerNext(s, t, work); ParkedFor(s', s'.daemons[t])
  {
    var s' := WorkerNext(s, t, work);
    forall b
      ensures Held(s'.daemons[t], b) <= multiset(s'.processing)[b]
      ensures s'.daemons[t].loop.Recovering? ==> Held(s'.daemons[t], b) == 0
    {
      assert Held(s.daemons[t], b) <= multiset(s.processing)[b];
    }
  }

  lemma StepKeepsKeys(s: State, a: Action)
    requires Enabled(s, a) && (a.OnLoop? || a.OnWorker?)
    ensures Next(s, a).daemons.Keys == s.daemons.Keys
  {
  }

  lemma SoleStepKeeps(s: State, a: Action)
    requires StillParked(s) && Enabled(s, a) && (a.OnLoop? || a.OnWorker?)
    ensures StillParked(Next(s, a))
  {
    StepKeepsKeys(s, a);
    if a.OnLoop? { LoopParked(s, a.t, a.step); } else { WorkerParked(s, a.t, a.work); }
  }

  lemma SoleOtherKeeps(s: State, a: Action)
    requires StillParked(s) && Enabled(s, a) && Sole(s, a) && !a.OnLoop? && !a.OnWorker?
    ensures StillParked(Next(s, a))
  {
    var s' := Next(s, a);
    forall t | t in s'.daemons ensures ParkedFor(s', s'.daemons[t]) {
      assert t in s.daemons ==> ParkedFor(s, s.daemons[t]);
    }
  }

  /** In every run where a daemon boots only once its predecessor is gone, each body in hand (popped,
      being handled, or ended and not yet acknowledged) is still on the processing list, copy for
      copy; so a crash at any step leaves all of them there for the next boot to recover. */
  lemma {:induction false} SoleDaemonKeepsParked(states: seq<State>, acts: seq<Action>, i: nat, t: Token)
    requires IsRun(states, acts) && i <= |acts|
    requires forall k | 0 <= k < i :: Sole(states[k], acts[k])
    ensures StillParked(states[i])
    ensures t in states[i].daemons ==>
      forall b :: Held(states[i].daemons[t], b) <= multiset(states[i].processing)[b]
  {
    if i > 0 {
      SoleDaemonKeepsParked(states, acts, i - 1, t);
      var s, a := states[i - 1], acts[i - 1];
      if a.OnLoop? || a.OnWorker? { SoleStepKeeps(s, a); } else { SoleOtherKeeps(s, a); }
    }
  }

  // ---------------------------------------------------------------------------
  // Overlapping daemons: exactly when a body in hand is no longer parked
  // ---------------------------------------------------------------------------

  /** How many copies of `b` all the daemons' threads have in hand. */
  ghost function TotalHeld(daemons: map<Token, Daemon>, b: Body): nat {
    if daemons == map[] then 0
    else
      var t := Pick(daemons);
      Held(daemons[t], b) + TotalHeld(daemons - {t}, b)
  }

  lemma {:induction false} TotalTakes(daemons: map<Token, Daemon>, t: Token, b: Body)
    requires t in daemons
    ensures TotalHeld(daemons, b) == Held(daemons[t], b) + TotalHeld(daemons - {t}, b)
    decreases |daemons|
  {
    var u := Pick(daemons);
    if u != t {
      var x, y := daemons - {u}, daemons - {t};
      assert x - {t} == y - {u};
      TotalTakes(x, t, b);
      TotalTakes(y, u, b);
    }
  }

  lemma TotalPut(daemons: map<Token, Daemon>, t: Token, d: Daemon, b: Body)
    ensures TotalHeld(daemons[t := d], b) == Held(d, b) + TotalHeld(daemons - {t}, b)
  {
    TotalTakes(daemons[t := d], t, b);
    assert daemons[t := d] - {t} == daemons - {t};
  }

  function Parked(s: State, b: Body): nat {
    multiset(s.processing)[b]
  }

  /** Every copy of `b` in any thread's hand is still on the processing list. */
  ghost predicate Covered(s: State, b: Body) {
    TotalHeld(s.daemons, b) <= Parked(s, b)
  }

  /** A recovering daemon moves a copy of `b` back to the inbox although every parked copy is in hand. */
  ghost predicate TakesInHand(s: State, a: Action, b: Body) {
    && a.OnLoop? && a.step.Recover? && a.t in s.daemons && s.daemons[a.t].loop == Recovering(Some(b))
    && s.processing != [] && s.processing[|s.processing| - 1] == b
    && TotalHeld(s.daemons, b) == Parked(s, b)
  }

  lemma LoopFrame(s: State, t: Token, step: LoopStep)
    requires t in s.daemons && LoopEnabled(s, s.daemons[t], step)
    ensures var s' := LoopNext(s, t, step); t in s'.daemons && s'.daemons == s.daemons[t := s'.daemons[t]]
  {
    match step case _ =>
  }

  lemma AckDelta(s: State, t: Token, b: Body)
    requires t in s.daemons && s.daemons[t].loop.Ended?
    ensures
      var s' := LoopNext(s, t, Ack);
      Held(s'.daemons[t], b) + Parked(s, b) <= Held(s.daemons[t], b) + Parked(s', b)
  {
    var d := s.daemons[t];
    MinusOne(multiset(s.processing), d.loop.body, b);
    assert Held(d.(loop := Ready), b) == Held(d, b) - Bit(d.loop.body == b);
  }

  lemma ParkDelta(s: State, t: Token, b: Body)
    requires t in s.daemons && LoopEnabled(s, s.daemons[t], Park)
    ensures
      var s' := LoopNext(s, t, Park);
      Held(s'.daemons[t], b) + Parked(s, b) <= Held(s.daemons[t], b) + Parked(s', b)
  {
    var d, x := s.daemons[t], s.inbox[0];
    assert Held(d.(loop := Popped(x)), b) == Held(d, b) + Bit(x == b);
    assert multiset(s.processing + [x])[b] == multiset(s.processing)[b] + Bit(x == b);
  }

  lemma AsideDelta(s: State, t: Token, step: LoopStep, b: Body)
    requires t in s.daemons && LoopEnabled(s, s.daemons[t], step) && !step.Recover? && !step.Ack? && !step.Park?
    ensures
      var s' := LoopNext(s, t, step);
      s'.processing == s.processing && t in s'.daemons && Held(s'.daemons[t], b) <= Held(s.daemons[t], b)
  {
    match step case _ =>
  }

  /** No loop step but recovery takes more off the list than out of the daemon's hands. */
  lemma LoopDelta(s: State, t: Token, step: LoopStep, b: Body)
    requires t in s.daemons && LoopEnabled(s, s.daemons[t], step) && !step.Recover?
    ensures
      var s' := LoopNext(s, t, step);
      && t in s'.daemons && s'.daemons == s.daemons[t := s'.daemons[t]]
      && Held(s'.daemons[t], b) + Parked(s, b) <= Held(s.daemons[t], b) + Parked(s', b)
  {
    LoopFrame(s, t, step);
    if step.Ack? {
      AckDelta(s, t, b);
    } else if step.Park? {
      ParkDelta(s, t, b);
    } else {
      AsideDelta(s, t, step, b);
    }
  }

  lemma RecoverDelta(s: State, t: Token, b: Body)
    requires t in s.daemons && LoopEnabled(s, s.daemons[t], Recover)
    ensures
      var s', n := LoopNext(s, t, Recover), |s.processing|;
      var moves := n > 0 && s.processing[n - 1] == b && s.daemons[t].loop == Recovering(Some(b));
      && s'.daemons == s.daemons[t := s'.daemons[t]] && Held(s'.daemons[t], b) == Held(s.daemons[t], b)
      && Parked(s, b) == Parked(s', b) + Bit(moves)
  {
    var n := |s.processing|;
    if n > 0 {
      assert s.processing == s.processing[..n - 1] + [s.processing[n - 1]];
      assert multiset(s.processing)[b] == multiset(s.processing[..n - 1])[b] + Bit(s.processing[n - 1] == b);
    }
  }

  lemma WorkerDelta(s: State, t: Token, work: WorkerStep, b: Body)
    requires t in s.daemons && WorkerEnabled(s.daemons[t], work)
    ensures
      var s' := WorkerNext(s, t, work);
      && s'.daemons == s.daemons[t := s'.daemons[t]]
      && Held(s'.daemons[t], b) + Parked(s, b) <= Held(s.daemons[t], b) + Parked(s', b)
  {
    var d := s.daemons[t];
    MinusOne(d.workers, work.body, b);
    MinusOne(d.finished, work.body, b);
    MinusOne(multiset(s.processing), work.body, b);
  }

  lemma DaemonStep(s: State, s': State, t: Token, b: Body)
    requires t in s.daemons && t in s'.daemons && s'.daemons == s.daemons[t := s'.daemons[t]]
    ensures TotalHeld(s'.daemons, b) == TotalHeld(s.daemons, b) - Held(s.daemons[t], b) + Held(s'.daemons[t], b)
  {
    TotalTakes(s.daemons, t, b);
    TotalPut(s.daemons, t, s'.daemons[t], b);
  }

  /** A step takes a body in hand off the list exactly when a daemon recovers a copy that is in hand. */
  lemma CoverStep(s: State, a: Action, b: Body)
    requires Enabled(s, a) && Covered(s, b)
    ensures Covered(Next(s, a), b) <==> !TakesInHand(s, a, b)
  {
    var s' := Next(s, a);
    match a
    case Deliver(_) =>
    case ExpireClaim(_) =>
    case Boot(t) =>
      TotalPut(s.daemons, t, Daemon(Recovering(None), multiset{}, multiset{}), b);
      assert s.daemons - {t} == s.daemons;
    case Crash(t) => TotalTakes(s.daemons, t, b);
    case OnLoop(t, step) =>
      if step.Recover? { RecoverDelta(s, t, b); } else { LoopDelta(s, t, step, b); }
      DaemonStep(s, s', t, b);
    case OnWorker(t, work) =>
      WorkerDelta(s, t, work, b);
      DaemonStep(s, s', t, b);
  }

  lemma {:induction false} CoveredUntilTaken(states: seq<State>, acts: seq<Action>, i: nat, b: Body)
    requires IsRun(states, acts) && i <= |acts|
    requires forall k | 0 <= k < i :: !TakesInHand(states[k], acts[k], b)
    ensures Covered(states[i], b)
  {
    if i > 0 {
      CoveredUntilTaken(states, acts, i - 1, b);
      CoverStep(states[i - 1], acts[i - 1], b);
    }
  }

  /** In every run, with any overlap of daemons and any crashes, every copy of `b` popped, being handled
      or not yet acknowledged stays parked exactly as long as no daemon recovers a copy that is in
      hand; so a crash at any step leaves it there for the next boot. */
  lemma InHandIsParked(states: seq<State>, acts: seq<Action>, i: nat, b: Body)
    requires IsRun(states, acts) && i <= |acts|
    ensures (forall k | 0 <= k <= i :: Covered(states[k], b))
       <==> (forall k | 0 <= k < i :: !TakesInHand(states[k], acts[k], b))
  {
    if forall k | 0 <= k < i :: !TakesInHand(states[k], acts[k], b) {
      forall k | 0 <= k <= i ensures Covered(states[k], b) {
        CoveredUntilTaken(states, acts, k, b);
      }
    }
    if forall k | 0 <= k <= i :: Covered(states[k], b) {
      forall k | 0 <= k < i ensures !TakesInHand(states[k], acts[k], b) {
        CoverStep(states[k], acts[k], b);
        assert Covered(states[k + 1], b);
      }
    }
  }

  function OneDaemon(loop: Loop): Daemon {
    Daemon(loop, multiset{}, multiset{})
  }

  /** Two overlapping daemons, step by step. */
  function OverlapState(b: Body, k: nat): State {
    var s := State([b], [], map[], map[], multiset{b}, [], []);
    var parked := s.(inbox := [], processing := [b]);
    match k
    case 0 => s
    case 1 => s.(daemons := map[0 := OneDaemon(Recovering(None))])
    case 2 => s.(daemons := map[0 := OneDaemon(Ready)])
    case 3 => parked.(daemons := map[0 := OneDaemon(Popped(b))])
    case 4 => parked.(daemons := map[0 := OneDaemon(Popped(b)), 1 := OneDaemon(Recovering(None))])
    case 5 => parked.(daemons := map[0 := OneDaemon(Popped(b)), 1 := OneDaemon(Recovering(Some(b)))])
    case _ => s.(daemons := map[0 := OneDaemon(Popped(b)), 1 := OneDaemon(Recovering(None))])
  }

  function OverlapAction(k: nat): Action {
    match k
    case 0 => Boot(0)
    case 1 => OnLoop(0, Peek)
    case 2 => OnLoop(0, Park)
    case 3 => Boot(1)
    case 4 => OnLoop(1, Peek)
    case _ => OnLoop(1, Recover)
  }

  lemma OverlapStep(b: Body, k: nat)
    requires k < 6
    ensures Enabled(OverlapState(b, k), OverlapAction(k))
    ensures Next(OverlapState(b, k), OverlapAction(k)) == OverlapState(b, k + 1)
  {
    var s, s' := OverlapState(b, k), OverlapState(b, k + 1);
    if k == 0 {
      assert Next(s, Boot(0)).daemons == s'.daemons;
    } else if k == 1 {
      assert Next(s, OnLoop(0, Peek)).daemons == s'.daemons;
    } else if k == 2 {
      assert Next(s, OnLoop(0, Park)).daemons == s'.daemons;
    } else if k == 3 {
      assert Next(s, Boot(1)).daemons == s'.daemons;
    } else if k == 4 {
      assert Next(s, OnLoop(1, Peek)).daemons == s'.daemons;
    } else {
      assert Next(s, OnLoop(1, Recover)).daemons == s'.daemons;
    }
  }

  /** The first daemon has popped the only body; the second finds it parked at its boot and puts it back
      in the inbox while it is still in the first one's hand. */
  lemma OverlapTakesInHand(b: Body) returns (states: seq<State>, acts: seq<Action>)
    ensures IsRun(states, acts) && |acts| == 6 && TakesInHand(states[5], acts[5], b)
    ensures
      var last := states[6];
      last.inbox == [b] && last.processing == [] && 0 in last.daemons && last.daemons[0].loop == Popped(b)
  {
    states := seq(7, k requires 0 <= k < 7 => OverlapState(b, k));
    acts := seq(6, k requires 0 <= k < 6 => OverlapAction(k));
    forall i | 0 <= i < |acts| ensures Enabled(states[i], acts[i]) && states[i + 1] == Next(states[i], acts[i]) {
      OverlapStep(b, i);
    }
    assert states[5] == OverlapState(b, 5) && states[6] == OverlapState(b, 6) && acts[5] == OverlapAction(5);
    OneHolder(states[5].daemons, b);
  }

  lemma OneHolder(daemons: map<Token, Daemon>, b: Body)
    requires daemons.Keys == {0, 1} && daemons[0] == Daemon(Popped(b), multiset{}, multiset{})
    requires daemons[1] == Daemon(Recovering(Some(b)), multiset{}, multiset{})
    ensures TotalHeld(daemons, b) == 1
  {
    TotalTakes(daemons, 0, b);
    TotalTakes(daemons - {0}, 1, b);
    assert daemons - {0} - {1} == map[];
  }

  // ---------------------------------------------------------------------------
  // Boot recovery
  // ---------------------------------------------------------------------------

  /** The recovery loop of one daemon with nobody else on the lists: unless Redis fails it empties the
      processing list and puts the bodies back at the front of the inbox in their parking order;
      at the first failure it gives up, no body dropped or duplicated. */
  method RecoverProcessing(s0: State, fails: nat -> bool) returns (s: State, gaveUp: bool)
    ensures s.processing + s.inbox == s0.processing + s0.inbox
    ensures !gaveUp ==> s.processing == [] && s.inbox == s0.processing + s0.inbox
    ensures !gaveUp ==> forall b | b in s0.processing :: b !in s.claims
    ensures gaveUp <==> exists k: nat :: k <= |s0.processing| && fails(k)
    ensures s.processing <= s0.processing && (gaveUp ==> fails(|s0.processing| - |s.processing|))
    ensures forall k: nat | k < |s0.processing| - |s.processing| :: !fails(k)
  {
    s, gaveUp := s0, false;
    var round := 0;
    while true
      invariant s.processing <= s0.processing
      invariant s.processing + s.inbox == s0.processing + s0.inbox
      invariant forall i | |s.processing| <= i < |s0.processing| :: s0.processing[i] !in s.claims
      invariant round == |s0.processing| - |s.processing| && forall k: nat | k < round :: !fails(k)
      decreases |s.processing|
    {
      if fails(round) {
        gaveUp := true;
        return;
      }
      if s.processing == [] { return; }
      var peeked := s.processing[|s.processing| - 1];
      s := RecoverValidated(s, peeked);
      round := round + 1;
    }
  }
}
