/**
  What each step of the reliable inbox does to the lists, exactly: which steps take a body off the
  processing list and when, that a body handled by its claimant is acknowledged, and that a boot puts
  every parked body back.
 */
module InboxSteps {
  import opened Common
  import opened Inbox

  /** Thread of daemon `t` acknowledges `b`: its inbox loop, or one of its workers. */
  predicate Acks(s: State, a: Action, t: Token, b: Body) {
    || (a == OnLoop(t, Ack) && t in s.daemons && s.daemons[t].loop == Ended(b))
    || a == OnWorker(t, WorkerAck(b))
  }

  /** The acknowledgement comes from the current claimant of a parked body. */
  predicate TakesOff(s: State, a: Action, t: Token, b: Body) {
    Acks(s, a, t, b) && b in s.claims && s.claims[b] == t && b in s.processing
  }

  /** A recovering daemon moves the right end of the processing list back to the inbox. */
  predicate PutsBack(s: State, a: Action, b: Body) {
    && a.OnLoop? && a.step.Recover? && a.t in s.daemons && s.daemons[a.t].loop == Recovering(Some(b))
    && s.processing != [] && s.processing[|s.processing| - 1] == b
  }

  predicate Parks(s: State, a: Action, b: Body) {
    a.OnLoop? && a.step.Park? && s.inbox != [] && s.inbox[0] == b
  }

  /** Position `i` holds the oldest parked copy of the body. */
  ghost predicate OldestAt(s: State, b: Body, i: nat) {
    i < |s.processing| && s.processing[i] == b && forall k | 0 <= k < i :: s.processing[k] != b
  }

  /** What the acknowledgement script does. */
  lemma AckEffect(s: State, t: Token, b: Body) returns (i: nat)
    ensures
      var s', claimed := Acknowledge(s, t, b), b in s.claims && s.claims[b] == t;
      && s' == s.(processing := s'.processing, claims := s'.claims, acked := s'.acked)
      && s'.claims == (if claimed then s.claims - {b} else s.claims)
      && (if claimed && b in s.processing
          then OldestAt(s, b, i) && s'.processing == s.processing[..i] + s.processing[i + 1..]
               && s'.acked == s.acked + [(t, b)]
          else s'.processing == s.processing && s'.acked == s.acked)
  {
    i := if b in s.processing then FirstIndex(s.processing, b) else 0;
  }

  /** An acknowledgement takes exactly one copy of the body, the oldest, off the processing list and is
      logged if and only if it comes from the current claimant and the body is parked; otherwise the
      lists and the log stay as they are. Either way the claimant's claim goes, and nobody else's. */
  lemma AckStep(s: State, a: Action, t: Token, b: Body) returns (i: nat)
    requires Enabled(s, a) && Acks(s, a, t, b)
    ensures
      var s' := Next(s, a);
      && s'.inbox == s.inbox && s'.delivered == s.delivered && s'.ended == s.ended
      && (TakesOff(s, a, t, b) ==>
            && OldestAt(s, b, i)
            && s'.processing == s.processing[..i] + s.processing[i + 1..] && s'.acked == s.acked + [(t, b)])
      && (!TakesOff(s, a, t, b) ==> s'.processing == s.processing && s'.acked == s.acked)
      && s'.claims == if b in s.claims && s.claims[b] == t then s.claims - {b} else s.claims
  {
    i := AckEffect(s, t, b);
    var s', done := Next(s, a), Acknowledge(s, t, b);
    assert s' == done.(daemons := s'.daemons);
  }

  lemma LoopLists(s: State, t: Token, step: LoopStep)
    requires t in s.daemons && LoopEnabled(s, s.daemons[t], step) && !step.Ack?
    ensures
      var s', a, n := LoopNext(s, t, step), OnLoop(t, step), |s.processing|;
      && s'.acked == s.acked && s'.delivered == s.delivered
      && (step.Park? ==> s'.processing == s.processing + [s.inbox[0]] && s.inbox == [s.inbox[0]] + s'.inbox)
      && (step.Recover? && PutsBack(s, a, s.daemons[t].loop.peeked.value) ==>
            s.processing == s'.processing + [s.processing[n - 1]] && s'.inbox == [s.processing[n - 1]] + s.inbox)
      && (!step.Park? && (step.Recover? ==> !PutsBack(s, a, s.daemons[t].loop.peeked.value)) ==>
            s'.processing == s.processing && s'.inbox == s.inbox)
  {
    match step case _ =>
  }

  /** In every run a step makes the processing list shorter exactly when a claimant acknowledges a parked
      body or a daemon puts one back; and the acknowledgement log grows exactly with the former. */
  lemma ListShrinksIff(states: seq<State>, acts: seq<Action>, k: nat)
    requires IsRun(states, acts) && k < |acts|
    ensures
      var s, a, s' := states[k], acts[k], states[k + 1];
      && (|s'.processing| < |s.processing| <==> (exists t, b :: TakesOff(s, a, t, b)) || exists b :: PutsBack(s, a, b))
      && (s'.acked != s.acked <==> exists t, b :: TakesOff(s, a, t, b))
      && (|s'.processing| > |s.processing| <==> exists b :: Parks(s, a, b))
  {
    var s, a, s' := states[k], acts[k], states[k + 1];
    if a.OnLoop? && !a.step.Ack? {
      LoopLists(s, a.t, a.step);
      if a.step.Park? {
        assert Parks(s, a, s.inbox[0]);
      }
      if a.step.Recover? {
        assert PutsBack(s, a, s.daemons[a.t].loop.peeked.value) || forall b :: !PutsBack(s, a, b);
      }
    } else if a.OnLoop? || (a.OnWorker? && a.work.WorkerAck?) {
      var b := if a.OnLoop? then s.daemons[a.t].loop.body else a.work.body;
      var i := AckStep(s, a, a.t, b);
      assert forall t, x | TakesOff(s, a, t, x) :: t == a.t && x == b;
    }
  }

  // ---------------------------------------------------------------------------
  // What can always happen next
  // ---------------------------------------------------------------------------

  function After(s: State, acts: seq<Action>): Option<State> {
    if acts == [] then Some(s)
    else
      var last := |acts| - 1;
      var before := After(s, acts[..last]);
      if before.Some? && Enabled(before.value, acts[last]) then Some(Next(before.value, acts[last])) else None
  }

  lemma Do(s0: State, acts: seq<Action>, s: State, a: Action) returns (acts': seq<Action>, s': State)
    requires After(s0, acts) == Some(s) && Enabled(s, a)
    ensures acts' == acts + [a] && s' == Next(s, a) && After(s0, acts') == Some(s')
  {
    acts', s' := acts + [a], Next(s, a);
    assert acts'[..|acts|] == acts;
  }

  lemma {:induction false} AfterJoin(s: State, a: seq<Action>, mid: State, b: seq<Action>)
    requires After(s, a) == Some(mid)
    ensures After(s, a + b) == After(mid, b)
  {
    if b == [] {
      assert a + b == a;
    } else {
      var n := |b| - 1;
      AfterJoin(s, a, mid, b[..n]);
      assert (a + b)[..|a| + n] == a + b[..n] && (a + b)[|a| + n] == b[n];
    }
  }

  /** A ready daemon parks the next body and claims it. */
  lemma ParksAndClaims(s: State, t: Token) returns (acts: seq<Action>, s': State)
    requires t in s.daemons && s.daemons[t].loop.Ready? && s.inbox != []
    ensures After(s, acts) == Some(s')
    ensures
      var b := s.inbox[0];
      s' == s.(inbox := s.inbox[1..], processing := s.processing + [b], claims := s.claims[b := t],
               daemons := s.daemons[t := s.daemons[t].(loop := Handling(b))])
  {
    acts, s' := Do(s, [], s, OnLoop(t, Park));
    acts, s' := Do(s, acts, s', OnLoop(t, Claim));
  }

  /** A body that is not parked already, handled on the inbox loop, leaves both lists for the log. */
  lemma HandledIsAcknowledged(s: State, t: Token) returns (acts: seq<Action>, s': State)
    requires t in s.daemons && s.daemons[t].loop.Ready? && s.inbox != [] && s.inbox[0] !in s.processing
    ensures After(s, acts) == Some(s')
    ensures
      var b := s.inbox[0];
      && s.inbox == [b] + s'.inbox && s'.processing == s.processing
      && s'.acked == s.acked + [(t, b)] && s'.ended == s.ended + [(t, b)]
      && t in s'.daemons && s'.daemons[t] == s.daemons[t] && b !in s'.claims
  {
    var b := s.inbox[0];
    acts, s' := ParksAndClaims(s, t);
    acts, s' := Do(s, acts, s', OnLoop(t, End));
    var ended := s';
    var i := AckStep(ended, OnLoop(t, Ack), t, b);
    acts, s' := Do(s, acts, ended, OnLoop(t, Ack));
    assert i == |s.processing| && ended.processing[..i] == s.processing;
  }

  /** A worker takes the body over and ends its handling. */
  lemma WorkerEnds(s: State, t: Token, b: Body) returns (acts: seq<Action>, s': State)
    requires t in s.daemons && s.daemons[t].loop == Handling(b)
    ensures After(s, acts) == Some(s')
    ensures
      var d := s.daemons[t];
      s' == s.(ended := s.ended + [(t, b)],
               daemons := s.daemons[t := d.(loop := Ready, finished := d.finished + multiset{b})])
  {
    var d := s.daemons[t];
    var mid;
    acts, mid := Do(s, [], s, OnLoop(t, HandOff));
    assert mid.daemons[t] == d.(loop := Ready, workers := d.workers + multiset{b});
    acts, s' := Do(s, acts, mid, OnWorker(t, WorkerEnd(b)));
    assert d.workers + multiset{b} - multiset{b} == d.workers;
    assert s'.daemons[t] == d.(loop := Ready, finished := d.finished + multiset{b});
  }

  /** And acknowledges it. */
  lemma WorkerAcks(s: State, t: Token, b: Body, parked: seq<Body>) returns (acts: seq<Action>, s': State)
    requires t in s.daemons && b in s.daemons[t].finished && b in s.claims && s.claims[b] == t
    requires s.processing == parked + [b] && b !in parked
    ensures After(s, acts) == Some(s') && s'.processing == parked && s'.inbox == s.inbox && s'.ended == s.ended
    ensures s'.acked == s.acked + [(t, b)] && b !in s'.claims
    ensures s'.daemons == s.daemons[t := s.daemons[t].(finished := s.daemons[t].finished - multiset{b})]
  {
    var i := AckStep(s, OnWorker(t, WorkerAck(b)), t, b);
    acts, s' := Do(s, [], s, OnWorker(t, WorkerAck(b)));
    assert i == |parked| && s.processing[..i] == parked;
  }

  /** The same when a worker handles it. */
  lemma WorkedIsAcknowledged(s: State, t: Token) returns (acts: seq<Action>, s': State)
    requires t in s.daemons && s.daemons[t].loop.Ready? && s.inbox != [] && s.inbox[0] !in s.processing
    ensures After(s, acts) == Some(s')
    ensures
      var b := s.inbox[0];
      && s.inbox == [b] + s'.inbox && s'.processing == s.processing
      && s'.acked == s.acked + [(t, b)] && s'.ended == s.ended + [(t, b)]
      && t in s'.daemons && s'.daemons[t] == s.daemons[t] && b !in s'.claims
  {
    var b, d := s.inbox[0], s.daemons[t];
    var x, s1 := ParksAndClaims(s, t);
    var y, s2 := WorkerEnds(s1, t, b);
    var z;
    z, s' := WorkerAcks(s2, t, b, s.processing);
    AfterJoin(s, x, s1, y);
    AfterJoin(s, x + y, s2, z);
    acts := x + y + z;
    assert d.finished + multiset{b} - multiset{b} == d.finished;
  }

  lemma PeeksLast(s: State, t: Token) returns (acts: seq<Action>)
    requires t in s.daemons && s.daemons[t].loop == Recovering(None) && s.processing != []
    ensures
      var last := s.processing[|s.processing| - 1];
      After(s, acts) == Some(Put(s, t, s.daemons[t].(loop := Recovering(Some(last)))))
  {
    var s';
    acts, s' := Do(s, [], s, OnLoop(t, Peek));
  }

  lemma MovesLast(s: State, t: Token, b: Body, rest: seq<Body>) returns (acts: seq<Action>)
    requires t in s.daemons && s.daemons[t].loop == Recovering(Some(b)) && s.processing == rest + [b]
    ensures After(s, acts) == Some(Put(s, t, s.daemons[t].(loop := Recovering(None)))
                                   .(processing := rest, inbox := [b] + s.inbox, claims := s.claims - {b}))
  {
    var s';
    acts, s' := Do(s, [], s, OnLoop(t, Recover));
    assert s.processing[..|rest|] == rest;
  }

  /** One body is put back. */
  lemma PutsOneBack(s: State, t: Token, b: Body, rest: seq<Body>) returns (acts: seq<Action>, s': State)
    requires t in s.daemons && s.daemons[t].loop == Recovering(None) && s.processing == rest + [b]
    ensures After(s, acts) == Some(s') && t in s'.daemons && s'.daemons[t].loop == Recovering(None)
    ensures s'.processing == rest && s'.inbox == [b] + s.inbox && s'.claims == s.claims - {b} && s'.acked == s.acked
  {
    var x := PeeksLast(s, t);
    var mid := Put(s, t, s.daemons[t].(loop := Recovering(Some(b))));
    var y := MovesLast(mid, t, b, rest);
    AfterJoin(s, x, mid, y);
    acts := x + y;
    s' := After(s, acts).value;
  }

  /** A recovering daemon, with nobody else at the lists, puts every parked body back in the inbox, in its
      parking order and unclaimed, and is then ready. */
  lemma {:induction false} RecoversAll(s: State, t: Token) returns (acts: seq<Action>, s': State)
    requires t in s.daemons && s.daemons[t].loop == Recovering(None)
    ensures After(s, acts) == Some(s') && t in s'.daemons && s'.daemons[t].loop.Ready?
    ensures s'.processing == [] && s'.inbox == s.processing + s.inbox && s'.acked == s.acked
    ensures forall b | b in s.processing || b !in s.claims :: b !in s'.claims
    decreases |s.processing|
  {
    if s.processing == [] {
      acts, s' := Do(s, [], s, OnLoop(t, Peek));
    } else {
      var n := |s.processing| - 1;
      var b, rest := s.processing[n], s.processing[..n];
      assert s.processing == rest + [b];
      var x, mid := PutsOneBack(s, t, b, rest);
      var y;
      y, s' := RecoversAll(mid, t);
      AfterJoin(s, x, mid, y);
      acts := x + y;
      assert rest + ([b] + s.inbox) == s.processing + s.inbox;
    }
  }

  /** So does a boot. */
  lemma BootRecovers(s: State, t: Token) returns (acts: seq<Action>, s': State)
    requires t !in s.daemons
    ensures After(s, acts) == Some(s') && t in s'.daemons && s'.daemons[t].loop.Ready?
    ensures s'.processing == [] && s'.inbox == s.processing + s.inbox && s'.acked == s.acked
    ensures forall b | b in s.processing :: b !in s'.claims
  {
    var a, mid := Do(s, [], s, Boot(t));
    var b;
    b, s' := RecoversAll(mid, t);
    AfterJoin(s, a, mid, b);
    acts := a + b;
  }
}
