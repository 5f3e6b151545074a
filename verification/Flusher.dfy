/**
  The asynchronous event tee: a bounded queue drained to a stream, whose failure handler puts
  a numbered drop marker into the queue being drained. Every event and every marker is in
  exactly one place at every moment of every interleaving.
 */
module Flusher {
  import opened Common

  /** Events are named by the order they were teed, markers by the drop count they report. */
  datatype Item = Event(id: nat) | Marker(number: nat)

  /**
    `heldEvents` and `heldMarkers` are off the queue and not yet written or given up; `owed`
    are drops counted whose marker is not yet queued or given up. `dropped` and `lost` are the
    events and markers given up. `otherDrops` counts drops reported by the second flusher, which
    shares the handler.
   */
  datatype State = State(
    q: seq<Item>, written: seq<Item>, heldEvents: set<nat>, heldMarkers: set<nat>, owed: set<nat>,
    dropped: set<nat>, lost: set<nat>, teed: nat, otherDrops: nat, drops: nat, markerDrops: nat)

  datatype Action =
    | TeeQueued | TeeDropped | OtherDropped
    | Take
    | WriteEvent(id: nat, ok: bool) | WriteMarker(number: nat, ok: bool)
    | EmitMarker(number: nat, ok: bool)

  /** A capacity of zero or less means no bound. */
  predicate Room(capacity: int, q: seq<Item>) {
    capacity <= 0 || |q| < capacity
  }

  /** A failed put may be noticed after the queue has room again, so failure needs no guard. */
  predicate Enabled(capacity: int, s: State, a: Action) {
    match a
    case TeeQueued => Room(capacity, s.q)
    case TeeDropped => true
    case OtherDropped => true
    case Take => s.q != []
    case WriteEvent(id, ok) => id in s.heldEvents
    case WriteMarker(n, ok) => n in s.heldMarkers
    case EmitMarker(n, ok) => n in s.owed && (ok ==> Room(capacity, s.q))
  }

  /** The drop handler's first half: count the drop and owe its marker. */
  function CountDrop(s: State): State {
    s.(drops := s.drops + 1, owed := s.owed + {s.drops + 1})
  }

  function LoseMarker(s: State, n: nat): State {
    s.(lost := s.lost + {n}, markerDrops := s.markerDrops + 1)
  }

  function DropEvent(s: State, id: nat): State {
    CountDrop(s.(dropped := s.dropped + {id}))
  }

  function Taken(s: State): State
    requires s.q != []
  {
    var t := s.(q := s.q[1..]);
    match s.q[0]
    case Event(id) => t.(heldEvents := t.heldEvents + {id})
    case Marker(n) => t.(heldMarkers := t.heldMarkers + {n})
  }

  function Next(capacity: int, s: State, a: Action): State
    requires Enabled(capacity, s, a)
  {
    match a
    case TeeQueued => s.(q := s.q + [Event(s.teed)], teed := s.teed + 1)
    case TeeDropped => DropEvent(s.(teed := s.teed + 1), s.teed)
    case OtherDropped => CountDrop(s.(otherDrops := s.otherDrops + 1))
    case Take => Taken(s)
    case WriteEvent(id, ok) =>
      var t := s.(heldEvents := s.heldEvents - {id});
      if ok then t.(written := t.written + [Event(id)]) else DropEvent(t, id)
    case WriteMarker(n, ok) =>
      var t := s.(heldMarkers := s.heldMarkers - {n});
      if ok then t.(written := t.written + [Marker(n)]) else LoseMarker(t, n)
    case EmitMarker(n, ok) =>
      var t := s.(owed := s.owed - {n});
      if ok then t.(q := t.q + [Marker(n)]) else LoseMarker(t, n)
  }

  const EMPTY := State([], [], {}, {}, {}, {}, {}, 0, 0, 0, 0)

  // ---------------------------------------------------------------------------
  // Everything is in one place
  // ---------------------------------------------------------------------------

  /** In how many places an item is. */
  ghost function Places(s: State, x: Item): nat {
    Count(s.q, x) + Count(s.written, x) +
    match x
    case Event(id) => Bit(id in s.heldEvents) + Bit(id in s.dropped)
    case Marker(n) => Bit(n in s.heldMarkers) + Bit(n in s.owed) + Bit(n in s.lost)
  }

  predicate Exists(s: State, x: Item) {
    match x
    case Event(id) => id < s.teed
    case Marker(n) => 1 <= n <= s.drops
  }

  /** Every event teed, and a marker for every drop counted, is in exactly one place. */
  ghost predicate Placed(s: State) {
    forall x :: Places(s, x) == Bit(Exists(s, x))
  }

  function Events(s: seq<Item>): nat {
    if s == [] then 0 else Events(s[1..]) + Bit(s[0].Event?)
  }

  function Markers(s: seq<Item>): nat {
    if s == [] then 0 else Markers(s[1..]) + Bit(s[0].Marker?)
  }

  /** The totals. */
  predicate Balanced(s: State) {
    && s.teed == Events(s.q) + Events(s.written) + |s.heldEvents| + |s.dropped|
    && s.drops == Markers(s.q) + Markers(s.written) + |s.heldMarkers| + |s.owed| + |s.lost|
    && s.drops == |s.dropped| + s.otherDrops && s.markerDrops == |s.lost|
  }

  ghost predicate Books(capacity: int, s: State) {
    Placed(s) && Balanced(s) && (capacity <= 0 || |s.q| <= capacity)
  }

  lemma {:induction false} CountsAppend(s: seq<Item>, x: Item)
    ensures Events(s + [x]) == Events(s) + Bit(x.Event?) && Markers(s + [x]) == Markers(s) + Bit(x.Marker?)
  {
    if s != [] {
      CountsAppend(s[1..], x);
      assert (s + [x])[1..] == s[1..] + [x];
    }
  }

  /** What an action moves is not already where it goes. */
  predicate Distinct(s: State, a: Action) {
    match a
    case TeeQueued => true
    case TeeDropped => s.teed !in s.dropped && s.drops + 1 !in s.owed
    case OtherDropped => s.drops + 1 !in s.owed
    case Take =>
      s.q != [] && (if s.q[0].Event? then s.q[0].id !in s.heldEvents else s.q[0].number !in s.heldMarkers)
    case WriteEvent(id, ok) => id !in s.dropped && s.drops + 1 !in s.owed
    case WriteMarker(n, ok) => n !in s.lost
    case EmitMarker(n, ok) => n !in s.lost
  }

  lemma PlacedIsDistinct(capacity: int, s: State, a: Action)
    requires Placed(s) && Enabled(capacity, s, a)
    ensures Distinct(s, a)
  {
    assert Places(s, Event(s.teed)) == 0;
    assert Places(s, Marker(s.drops + 1)) == 0;
    match a
    case TeeQueued =>
    case TeeDropped =>
    case OtherDropped =>
    case Take =>
      CountTail(s.q, s.q[0]);
      assert Places(s, s.q[0]) <= 1;
    case WriteEvent(id, ok) => assert Places(s, Event(id)) <= 1;
    case WriteMarker(n, ok) => assert Places(s, Marker(n)) <= 1;
    case EmitMarker(n, ok) => assert Places(s, Marker(n)) <= 1;
  }

  /** A step changes the places of an item only as it brings that item into being. */
  lemma StepMoves(capacity: int, s: State, a: Action, x: Item)
    requires Enabled(capacity, s, a) && Distinct(s, a)
    ensures var t := Next(capacity, s, a); Places(t, x) + Bit(Exists(s, x)) == Places(s, x) + Bit(Exists(t, x))
  {
    match a
    case TeeQueued => CountAppend(s.q, Event(s.teed), x);
    case TeeDropped =>
    case OtherDropped =>
    case Take => CountTail(s.q, x);
    case WriteEvent(id, ok) => CountAppend(s.written, Event(id), x);
    case WriteMarker(n, ok) => CountAppend(s.written, Marker(n), x);
    case EmitMarker(n, ok) => CountAppend(s.q, Marker(n), x);
  }

  lemma Removing(s: set<nat>, n: nat)
    requires n in s
    ensures |s - {n}| == |s| - 1
  {
  }

  lemma Adding(s: set<nat>, n: nat)
    requires n !in s
    ensures |s + {n}| == |s| + 1
  {
  }

  lemma WriteEventBalances(s: State, id: nat, ok: bool)
    requires Balanced(s) && id in s.heldEvents && Distinct(s, WriteEvent(id, ok))
    ensures Balanced(Next(0, s, WriteEvent(id, ok)))
  {
    Removing(s.heldEvents, id);
    if ok {
      CountsAppend(s.written, Event(id));
    } else {
      Adding(s.dropped, id);
      Adding(s.owed, s.drops + 1);
    }
  }

  lemma WriteMarkerBalances(s: State, n: nat, ok: bool)
    requires Balanced(s) && n in s.heldMarkers && n !in s.lost
    ensures Balanced(Next(0, s, WriteMarker(n, ok)))
  {
    Removing(s.heldMarkers, n);
    if ok {
      CountsAppend(s.written, Marker(n));
    } else {
      Adding(s.lost, n);
    }
  }

  lemma EmitBalances(s: State, n: nat, ok: bool)
    requires Balanced(s) && n in s.owed && n !in s.lost
    ensures Balanced(Next(0, s, EmitMarker(n, ok)))
  {
    Removing(s.owed, n);
    if ok {
      CountsAppend(s.q, Marker(n));
    } else {
      Adding(s.lost, n);
    }
  }

  lemma TakeBalances(s: State)
    requires Balanced(s) && Distinct(s, Take)
    ensures Balanced(Taken(s))
  {
    match s.q[0]
    case Event(id) => Adding(s.heldEvents, id);
    case Marker(n) => Adding(s.heldMarkers, n);
  }

  lemma TeeBalances(s: State, a: Action)
    requires Balanced(s) && Distinct(s, a) && (a.TeeQueued? || a.TeeDropped? || a.OtherDropped?)
    ensures Balanced(Next(0, s, a))
  {
    if a.TeeQueued? {
      CountsAppend(s.q, Event(s.teed));
    } else {
      Adding(s.owed, s.drops + 1);
      if a.TeeDropped? {
        Adding(s.dropped, s.teed);
      }
    }
  }

  /** The capacity guards steps; it does not change what they do. */
  lemma StepBalances(capacity: int, s: State, a: Action)
    requires Balanced(s) && Enabled(capacity, s, a) && Distinct(s, a)
    ensures Balanced(Next(capacity, s, a))
  {
    assert Enabled(0, s, a) && Next(capacity, s, a) == Next(0, s, a);
    match a
    case TeeQueued => TeeBalances(s, a);
    case TeeDropped => TeeBalances(s, a);
    case OtherDropped => TeeBalances(s, a);
    case Take => TakeBalances(s);
    case WriteEvent(id, ok) => WriteEventBalances(s, id, ok);
    case WriteMarker(n, ok) => WriteMarkerBalances(s, n, ok);
    case EmitMarker(n, ok) => EmitBalances(s, n, ok);
  }

  lemma StepKeepsBooks(capacity: int, s: State, a: Action)
    requires Books(capacity, s) && Enabled(capacity, s, a)
    ensures Books(capacity, Next(capacity, s, a))
  {
    PlacedIsDistinct(capacity, s, a);
    StepBalances(capacity, s, a);
    var t := Next(capacity, s, a);
    forall x ensures Places(t, x) == Bit(Exists(t, x)) {
      StepMoves(capacity, s, a, x);
      assert Places(s, x) == Bit(Exists(s, x));
    }
  }

  ghost predicate IsRun(capacity: int, states: seq<State>, actions: seq<Action>) {
    && |states| == |actions| + 1 && states[0] == EMPTY
    && forall i | 0 <= i < |actions| ::
      Enabled(capacity, states[i], actions[i]) && states[i + 1] == Next(capacity, states[i], actions[i])
  }

  /** In every interleaving, at every moment, every item is in one place and the totals balance. */
  lemma {:induction false} RunKeepsBooks(capacity: int, states: seq<State>, actions: seq<Action>, i: nat)
    requires IsRun(capacity, states, actions) && i < |states|
    ensures Books(capacity, states[i])
  {
    if i == 0 {
      forall x ensures Places(EMPTY, x) == 0 {}
    } else {
      RunKeepsBooks(capacity, states, actions, i - 1);
      StepKeepsBooks(capacity, states[i - 1], actions[i - 1]);
    }
  }

  // ---------------------------------------------------------------------------
  // A flush with no other producer
  // ---------------------------------------------------------------------------

  /** Work left: an event may yet turn into a marker. */
  function Work(q: seq<Item>): nat {
    2 * Events(q) + Markers(q)
  }

  /** No thread is between two steps of the tee or its handler. */
  predicate Quiet(s: State) {
    s.heldEvents == {} && s.heldMarkers == {} && s.owed == {}
  }

  /** The handler's second half, by one thread alone: queue the marker just owed, if there is room. */
  function Emitted(capacity: int, s: State): State
    requires s.drops in s.owed
  {
    Next(capacity, s, EmitMarker(s.drops, Room(capacity, s.q)))
  }

  /** One turn of the drain loop: take an item and write it, or hand it to its failure handler. */
  function Processed(capacity: int, s: State, ok: bool): State
    requires s.q != []
  {
    var t := Taken(s);
    match s.q[0]
    case Event(id) =>
      var u := Next(capacity, t, WriteEvent(id, ok));
      if ok then u else Emitted(capacity, u)
    case Marker(n) => Next(capacity, t, WriteMarker(n, ok))
  }

  /** One tee by a lone producer. */
  function Teed(capacity: int, s: State): State {
    if Room(capacity, s.q) then Next(capacity, s, TeeQueued)
    else Emitted(capacity, Next(capacity, s, TeeDropped))
  }

  lemma TeedKeepsBooks(capacity: int, s: State)
    requires Books(capacity, s)
    ensures Books(capacity, Teed(capacity, s))
  {
    if Room(capacity, s.q) {
      StepKeepsBooks(capacity, s, TeeQueued);
    } else {
      StepKeepsBooks(capacity, s, TeeDropped);
      var t := Next(capacity, s, TeeDropped);
      StepKeepsBooks(capacity, t, EmitMarker(t.drops, Room(capacity, t.q)));
    }
  }

  lemma ProcessedKeepsBooks(capacity: int, s: State, ok: bool)
    requires Books(capacity, s) && s.q != []
    ensures Books(capacity, Processed(capacity, s, ok))
  {
    StepKeepsBooks(capacity, s, Take);
    var t := Taken(s);
    match s.q[0]
    case Event(id) =>
      StepKeepsBooks(capacity, t, WriteEvent(id, ok));
      if !ok {
        var u := Next(capacity, t, WriteEvent(id, ok));
        StepKeepsBooks(capacity, u, EmitMarker(u.drops, Room(capacity, u.q)));
      }
    case Marker(n) => StepKeepsBooks(capacity, t, WriteMarker(n, ok));
  }

  /** A turn shrinks the work; the taken item's slot is free, so only a failed marker write loses a marker. */
  lemma ProcessedShrinks(capacity: int, s: State, ok: bool)
    requires Quiet(s) && s.q != [] && (capacity <= 0 || |s.q| <= capacity)
    ensures var t := Processed(capacity, s, ok);
      && Quiet(t) && Work(t.q) < Work(s.q)
      && t.markerDrops == s.markerDrops + Bit(s.q[0].Marker? && !ok)
      && t.drops == s.drops + Bit(s.q[0].Event? && !ok) && t.teed == s.teed
  {
    CountsAppend(s.q[1..], Marker(s.drops + 1));
  }

  class EventFlusher {
    const capacity: int
    var q: seq<Item>
    var stream: seq<Item>
    var drops: nat
    var markerDrops: nat
    ghost var rest: State

    ghost predicate Valid()
      reads this
    {
      Books(capacity, View()) && Quiet(View())
    }

    /** The queue, the stream and the counters are real; the rest of the state is bookkeeping. */
    ghost function View(): State
      reads this
    {
      rest.(q := q, written := stream, drops := drops, markerDrops := markerDrops)
    }

    constructor (capacity: int)
      ensures Valid() && this.capacity == capacity && View() == EMPTY
    {
      this.capacity, q, stream, drops, markerDrops, rest := capacity, [], [], 0, 0, EMPTY;
      new;
      RunKeepsBooks(capacity, [EMPTY], [], 0);
    }

    method Enqueue(x: Item) returns (ok: bool)
      modifies this`q
      ensures ok == Room(capacity, old(q)) && q == if ok then old(q) + [x] else old(q)
    {
      ok := capacity <= 0 || |q| < capacity;
      if ok {
        q := q + [x];
      }
    }

    /** The drop handler: count, then queue a marker, else count the marker as lost. */
    method HandleDrop()
      modifies this`q, this`drops, this`markerDrops
      ensures drops == old(drops) + 1
      ensures q == if Room(capacity, old(q)) then old(q) + [Marker(drops)] else old(q)
      ensures markerDrops == old(markerDrops) + Bit(!Room(capacity, old(q)))
    {
      drops := drops + 1;
      var ok := Enqueue(Marker(drops));
      if !ok {
        markerDrops := markerDrops + 1;
      }
    }

    method Tee(id: nat)
      requires Valid() && id == View().teed
      modifies this
      ensures Valid() && View() == Teed(capacity, old(View()))
    {
      ghost var s := View();
      TeedKeepsBooks(capacity, s);
      var ok := Enqueue(Event(id));
      if !ok {
        HandleDrop();
      }
      rest := Teed(capacity, s);
    }

    /** Writes one item; `ok` is what the stream server answers. */
    method ProcessItem(x: Item, ok: bool)
      modifies this`q, this`stream, this`drops, this`markerDrops
      ensures ok ==>
        stream == old(stream) + [x] && q == old(q) && drops == old(drops) && markerDrops == old(markerDrops)
      ensures !ok ==> stream == old(stream)
      ensures !ok && x.Marker? ==> q == old(q) && drops == old(drops) && markerDrops == old(markerDrops) + 1
      ensures !ok && x.Event? ==>
        && drops == old(drops) + 1
        && q == (if Room(capacity, old(q)) then old(q) + [Marker(drops)] else old(q))
        && markerDrops == old(markerDrops) + Bit(!Room(capacity, old(q)))
    {
      if ok {
        stream := stream + [x];
      } else if x.Marker? {
        markerDrops := markerDrops + 1;
      } else {
        HandleDrop();
      }
    }

    /** Takes the first item and processes it. */
    method DrainOne(ok: bool) returns (x: Item)
      requires q != []
      modifies this
      ensures x == old(q)[0] && View() == Processed(capacity, old(View()), ok)
    {
      ghost var s := View();
      x := q[0];
      q := q[1..];
      ProcessItem(x, ok);
      rest := Processed(capacity, s, ok);
      assert View() == rest;
    }

    /**
      Drains the queue, whatever each write answers. It ends, with an empty queue, after at most
      `Work` writes, and gives up on a marker only when that marker's own write failed.
     */
    method FlushPending() returns (writes: nat, failedMarkers: nat, failedEvents: nat)
      requires Valid()
      modifies this
      ensures Valid() && q == []
      ensures writes <= 2 * Events(old(q)) + Markers(old(q))
      ensures markerDrops == old(markerDrops) + failedMarkers
      ensures drops == old(drops) + failedEvents && failedMarkers + failedEvents <= writes
      ensures drops == Markers(stream) + markerDrops
      ensures View().teed == old(View()).teed && View().teed == Events(stream) + |View().dropped|
    {
      writes, failedMarkers, failedEvents := 0, 0, 0;
      while q != []
        invariant Valid()
        invariant writes + Work(q) <= Work(old(q))
        invariant markerDrops == old(markerDrops) + failedMarkers
        invariant drops == old(drops) + failedEvents && failedMarkers + failedEvents <= writes
        invariant View().teed == old(View()).teed
        decreases Work(q)
      {
        var ok: bool := *;
        ghost var s := View();
        ProcessedKeepsBooks(capacity, s, ok);
        ProcessedShrinks(capacity, s, ok);
        var x := DrainOne(ok);
        writes := writes + 1;
        if !ok && x.Marker? { failedMarkers := failedMarkers + 1; }
        if !ok && x.Event? { failedEvents := failedEvents + 1; }
      }
    }
  }
}
