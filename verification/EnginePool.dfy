/**
  The bounded engine pool: lazy creation, reservations, retirement, thread affinity.
 */
module EnginePool {
  import opened Common

  type Engine = nat
  type TaskId = nat

  datatype Acquired =
    | Got(engine: Engine)
    | Full
    | StartFailed
    | AffinityMiss
    | AffinityBusy(owner: TaskId)
    | AffinityAmbiguous

  /** Where an engine the factory made is: exactly one place at a time. */
  datatype Place = Idle | Busy(task: TaskId) | Stopped

  /** Which engines sit on a thread: one idle, one busy, none, or more than one. */
  datatype Affinity = OnIdle(i: nat) | OnBusy(owner: TaskId) | Nowhere | Several

  /** What the pool may ask of an engine: its thread, its health, whether it wants to retire. */
  datatype Probe = Probe(thread: Engine -> Option<string>, healthy: Engine -> bool, retiring: Engine -> bool)

  ghost predicate IdleOn(idle: seq<Engine>, p: Probe, thread: string, i: int) {
    0 <= i < |idle| && p.thread(idle[i]) == Some(thread)
  }

  ghost predicate BusyOn(busy: map<TaskId, Option<Engine>>, p: Probe, thread: string, t: TaskId) {
    t in busy && busy[t].Some? && p.thread(busy[t].value) == Some(thread)
  }

  type Tasks = map<TaskId, Option<Engine>>
  type Places = map<Engine, Place>

  /** Who sits on a thread: nobody, one idle engine, one busy engine, or two engines or more. */
  ghost predicate NobodyOn(idle: seq<Engine>, busy: Tasks, p: Probe, thread: string) {
    (forall i :: !IdleOn(idle, p, thread, i)) && forall t :: !BusyOn(busy, p, thread, t)
  }

  ghost predicate OnlyIdleOn(idle: seq<Engine>, busy: Tasks, p: Probe, thread: string, i: int) {
    (forall j :: IdleOn(idle, p, thread, j) <==> j == i) && forall t :: !BusyOn(busy, p, thread, t)
  }

  ghost predicate OnlyBusyOn(idle: seq<Engine>, busy: Tasks, p: Probe, thread: string, owner: TaskId) {
    (forall i :: !IdleOn(idle, p, thread, i)) && forall t :: BusyOn(busy, p, thread, t) <==> t == owner
  }

  ghost predicate TwoOn(idle: seq<Engine>, busy: Tasks, p: Probe, thread: string) {
    || (exists i, j :: i < j && IdleOn(idle, p, thread, i) && IdleOn(idle, p, thread, j))
    || (exists t, u :: t != u && BusyOn(busy, p, thread, t) && BusyOn(busy, p, thread, u))
    || (exists i, t :: IdleOn(idle, p, thread, i) && BusyOn(busy, p, thread, t))
  }

  /** The four exclude each other. */
  lemma AffinitiesExclude(idle: seq<Engine>, busy: Tasks, p: Probe, thread: string, i: int, t: TaskId)
    ensures OnlyIdleOn(idle, busy, p, thread, i) ==>
      !NobodyOn(idle, busy, p, thread) && !OnlyBusyOn(idle, busy, p, thread, t) && !TwoOn(idle, busy, p, thread)
    ensures OnlyBusyOn(idle, busy, p, thread, t) ==> !NobodyOn(idle, busy, p, thread) && !TwoOn(idle, busy, p, thread)
    ensures NobodyOn(idle, busy, p, thread) ==> !TwoOn(idle, busy, p, thread)
  {
    if OnlyIdleOn(idle, busy, p, thread, i) {
      assert IdleOn(idle, p, thread, i);
    }
    if OnlyBusyOn(idle, busy, p, thread, t) {
      assert BusyOn(busy, p, thread, t);
    }
  }

  /** Slots: exact before `StopAll`, an upper bound after it (the counter is not reset).
      Reservations are exactly the busy tasks with no engine. */
  ghost predicate SlotsOk(
    maxSize: nat, idle: seq<Engine>, busy: Tasks, reserved: set<TaskId>, started: int, shut: bool) {
    && 1 <= maxSize
    && |idle| + |busy| <= started <= maxSize
    && (!shut ==> started == |idle| + |busy|)
    && (forall t :: t in reserved <==> t in busy && busy[t] == None)
  }

  /** Every engine ever made is in exactly one of: idle, busy with one task, handed to stop, and there once. */
  ghost predicate PlacesOk(idle: seq<Engine>, busy: Tasks, stopped: seq<Engine>, place: Places) {
    && (forall i, j | 0 <= i < j < |idle| :: idle[i] != idle[j])
    && (forall i, j | 0 <= i < j < |stopped| :: stopped[i] != stopped[j])
    && (forall e | e in idle :: e in place && place[e] == Idle)
    && (forall t | t in busy && busy[t].Some? :: busy[t].value in place && place[busy[t].value] == Busy(t))
    && (forall e | e in stopped :: e in place && place[e] == Stopped)
    && (forall e | e in place ::
          match place[e]
          case Idle => e in idle
          case Busy(t) => t in busy && busy[t] == Some(e)
          case Stopped => e in stopped)
  }

  ghost predicate Works(busy: Tasks, e: Engine) {
    exists t :: t in busy && busy[t] == Some(e)
  }

  /** The list holds the engines of the busy tasks, each once. */
  ghost predicate ListsBusy(engines: seq<Engine>, busy: Tasks) {
    && (forall i, j | 0 <= i < j < |engines| :: engines[i] != engines[j])
    && (forall e :: e in engines <==> Works(busy, e))
  }

  /** The list holds the live engines, idle or busy. */
  ghost predicate ListsLive(engines: seq<Engine>, idle: seq<Engine>, busy: Tasks) {
    forall e :: e in engines <==> e in idle || Works(busy, e)
  }

  lemma BusySlots(maxSize: nat, idle: seq<Engine>, busy: Tasks, reserved: set<TaskId>, started: int, shut: bool,
                  task: TaskId, e: Engine, idle': seq<Engine>, started': int)
    requires SlotsOk(maxSize, idle, busy, reserved, started, shut) && task !in busy
    requires started' - |idle'| == started - |idle| + 1 && started' <= maxSize
    ensures SlotsOk(maxSize, idle', busy[task := Some(e)], reserved, started', shut)
  {
    assert |busy[task := Some(e)]| == |busy| + 1;
  }

  /** An engine that is idle, or new, goes to a task that has none. */
  lemma BusyPlaces(idle: seq<Engine>, busy: Tasks, stopped: seq<Engine>, place: Places,
                   task: TaskId, e: Engine, idle': seq<Engine>)
    requires PlacesOk(idle, busy, stopped, place) && task !in busy && (e in place ==> place[e] == Idle)
    requires forall x :: x in idle' <==> x in idle && x != e
    requires forall i, j | 0 <= i < j < |idle'| :: idle'[i] != idle'[j]
    ensures PlacesOk(idle', busy[task := Some(e)], stopped, place[e := Busy(task)])
  {
  }

  /** Booking an engine for a task that is busy already breaks the books. */
  lemma BusyTwiceBreaks(maxSize: nat, idle: seq<Engine>, busy: Tasks, reserved: set<TaskId>, started: int, shut: bool,
                        stopped: seq<Engine>, place: Places, task: TaskId, e: Engine, idle': seq<Engine>, started': int)
    requires SlotsOk(maxSize, idle, busy, reserved, started, shut) && PlacesOk(idle, busy, stopped, place)
    requires task in busy && (e in place ==> place[e] == Idle)
    ensures !SlotsOk(maxSize, idle', busy[task := Some(e)], reserved, started', shut)
         || !PlacesOk(idle', busy[task := Some(e)], stopped, place[e := Busy(task)])
  {
    if busy[task] == None {
      assert task in reserved;
    } else {
      var old' := busy[task].value;
      assert place[e := Busy(task)][old'] == Busy(task);
    }
  }

  lemma IdleWithout(idle: seq<Engine>, i: nat)
    requires i < |idle| && forall j, k | 0 <= j < k < |idle| :: idle[j] != idle[k]
    ensures var rest := idle[..i] + idle[i + 1..];
      && (forall x :: x in rest <==> x in idle && x != idle[i])
      && (forall j, k | 0 <= j < k < |rest| :: rest[j] != rest[k])
  {
    var rest := idle[..i] + idle[i + 1..];
    forall x ensures x in rest <==> x in idle && x != idle[i] {
      if x in idle && x != idle[i] {
        var j :| 0 <= j < |idle| && idle[j] == x;
        assert rest[if j < i then j else j - 1] == x;
      }
    }
  }

  /** An engine handed to stop: it leaves the idle list, or its task, or was never booked. */
  lemma StopPlaces(idle: seq<Engine>, busy: Tasks, stopped: seq<Engine>, place: Places, e: Engine,
                   idle': seq<Engine>, busy': Tasks)
    requires PlacesOk(idle, busy, stopped, place) && (e in place ==> !place[e].Stopped?)
    requires forall x :: x in idle' <==> x in idle && x != e
    requires forall i, j | 0 <= i < j < |idle'| :: idle'[i] != idle'[j]
    requires forall t | t in busy' :: t in busy && busy'[t] == busy[t] && busy[t] != Some(e)
    requires forall t | t in busy && busy[t].Some? && busy[t] != Some(e) :: t in busy'
    ensures PlacesOk(idle', busy', stopped + [e], place[e := Stopped])
  {
    assert (stopped + [e])[|stopped|] == e;
    assert forall x :: x in stopped + [e] <==> x in stopped || x == e;
  }

  class Pool {
    const maxSize: nat
    var idle: seq<Engine>
    var busy: Tasks
    var reserved: set<TaskId>
    var started: int
    /** The engines whose `stop` was called, in order. */
    var stopped: seq<Engine>
    ghost var place: Places
    ghost var shut: bool

    ghost predicate Valid()
      reads this
    {
      SlotsOk(maxSize, idle, busy, reserved, started, shut) && PlacesOk(idle, busy, stopped, place)
    }

    predicate HasCapacity()
      reads this
    {
      |idle| > 0 || started < maxSize
    }

    constructor (maxSize: nat)
      requires maxSize >= 1
      ensures Valid() && !shut && this.maxSize == maxSize && idle == [] && busy == map[] && stopped == []
      ensures place == map[]
    {
      this.maxSize := maxSize;
      idle, busy, reserved, started, stopped := [], map[], {}, 0, [];
      place, shut := map[], false;
    }

    /** Takes idle engine `i` for `task`. The books stay right exactly when that task id is fresh. */
    method TakeIdle(task: TaskId, i: nat) returns (e: Engine)
      requires Valid() && i < |idle|
      modifies this
      ensures e == old(idle)[i] && idle == old(idle)[..i] + old(idle)[i + 1..]
      ensures busy == old(busy)[task := Some(e)] && place == old(place)[e := Busy(task)]
      ensures unchanged(this`reserved, this`started, this`stopped, this`shut)
      ensures Valid() <==> task !in old(busy)
    {
      e := idle[i];
      ghost var rest := idle[..i] + idle[i + 1..];
      IdleWithout(idle, i);
      if task in busy {
        BusyTwiceBreaks(maxSize, idle, busy, reserved, started, shut, stopped, place, task, e, rest, started);
      } else {
        BusySlots(maxSize, idle, busy, reserved, started, shut, task, e, rest, started);
        BusyPlaces(idle, busy, stopped, place, task, e, rest);
      }
      idle := idle[..i] + idle[i + 1..];
      busy := busy[task := Some(e)];
      place := place[e := Busy(task)];
    }

    /** Looks a thread up among idle and busy engines. The four answers exclude each other. */
    method FindThread(p: Probe, thread: string) returns (a: Affinity)
      ensures match a
        case OnIdle(i) => OnlyIdleOn(idle, busy, p, thread, i)
        case OnBusy(owner) => OnlyBusyOn(idle, busy, p, thread, owner)
        case Nowhere => NobodyOn(idle, busy, p, thread)
        case Several => TwoOn(idle, busy, p, thread)
    {
      var idleAt: seq<nat> := [];
      for i := 0 to |idle|
        invariant forall k :: k in idleAt <==> k < i && IdleOn(idle, p, thread, k)
        invariant forall a | 0 <= a < |idleAt| :: idleAt[a] in idleAt
        invariant forall a, b | 0 <= a < b < |idleAt| :: idleAt[a] < idleAt[b]
      {
        if p.thread(idle[i]) == Some(thread) { idleAt := idleAt + [i]; }
      }
      var busyWith := set t | t in busy && busy[t].Some? && p.thread(busy[t].value) == Some(thread);
      if busyWith != {} {
        var t :| t in busyWith;
        if idleAt != [] {
          assert IdleOn(idle, p, thread, idleAt[0]) && BusyOn(busy, p, thread, t);
          return Several;
        }
        var rest := busyWith - {t};
        if rest != {} {
          var u :| u in rest;
          assert BusyOn(busy, p, thread, t) && BusyOn(busy, p, thread, u);
          return Several;
        }
        assert busyWith == rest + {t};
        assert forall u :: BusyOn(busy, p, thread, u) <==> u in busyWith;
        return OnBusy(t);
      }
      assert forall u | BusyOn(busy, p, thread, u) :: u in busyWith;
      if |idleAt| > 1 {
        assert IdleOn(idle, p, thread, idleAt[0]) && IdleOn(idle, p, thread, idleAt[1]);
        return Several;
      }
      if idleAt != [] {
        return OnIdle(idleAt[0]);
      }
      return Nowhere;
    }

    /** Affinity: the engine is handed over exactly when it is the only one on that thread and idle; each
        refusal has exactly its cause and leaves the pool as it was. */
    method AcquireThread(task: TaskId, thread: string, p: Probe) returns (r: Acquired)
      requires Valid()
      modifies this
      ensures r.Got? <==> exists i :: OnlyIdleOn(old(idle), old(busy), p, thread, i)
      ensures r.AffinityMiss? <==> NobodyOn(old(idle), old(busy), p, thread)
      ensures r.AffinityBusy? <==> exists t :: OnlyBusyOn(old(idle), old(busy), p, thread, t)
      ensures r.AffinityAmbiguous? <==> TwoOn(old(idle), old(busy), p, thread)
      ensures r.Got? ==>
        && (forall i :: IdleOn(old(idle), p, thread, i) <==> 0 <= i < |old(idle)| && old(idle)[i] == r.engine)
        && (forall x :: x in idle <==> x in old(idle) && x != r.engine) && |idle| == |old(idle)| - 1
        && busy == old(busy)[task := Some(r.engine)] && (Valid() <==> task !in old(busy))
        && unchanged(this`reserved, this`started, this`stopped, this`shut)
      ensures r.AffinityBusy? ==> OnlyBusyOn(old(idle), old(busy), p, thread, r.owner)
      ensures !r.Got? ==> unchanged(this)
    {
      var a := FindThread(p, thread);
      forall i, t
        ensures OnlyIdleOn(idle, busy, p, thread, i) ==>
          !NobodyOn(idle, busy, p, thread) && !OnlyBusyOn(idle, busy, p, thread, t) && !TwoOn(idle, busy, p, thread)
        ensures OnlyBusyOn(idle, busy, p, thread, t) ==> !NobodyOn(idle, busy, p, thread) && !TwoOn(idle, busy, p, thread)
      {
        AffinitiesExclude(idle, busy, p, thread, i, t);
      }
      AffinitiesExclude(idle, busy, p, thread, 0, 0);
      match a
      case OnIdle(i) =>
        assert IdleOn(idle, p, thread, i);
        IdleWithout(idle, i);
        var e := TakeIdle(task, i);
        r := Got(e);
      case OnBusy(owner) => r := AffinityBusy(owner);
      case Nowhere => r := AffinityMiss;
      case Several => r := AffinityAmbiguous;
    }

    /** Books a newly started engine for `task`. */
    method Register(task: TaskId, built: Engine)
      requires Valid() && built !in place && started < maxSize
      modifies this
      ensures busy == old(busy)[task := Some(built)] && place == old(place)[built := Busy(task)]
      ensures started == old(started) + 1 && unchanged(this`idle, this`reserved, this`stopped, this`shut)
      ensures Valid() <==> task !in old(busy)
    {
      if task in busy {
        BusyTwiceBreaks(maxSize, idle, busy, reserved, started, shut, stopped, place, task, built, idle, started + 1);
      } else {
        BusySlots(maxSize, idle, busy, reserved, started, shut, task, built, idle, started + 1);
        BusyPlaces(idle, busy, stopped, place, task, built, idle);
      }
      started := started + 1;
      busy := busy[task := Some(built)];
      place := place[built := Busy(task)];
    }

    /** Plain acquire: `built` is what the factory would build and `starts` whether it starts. An engine
        that fails to start is stopped and leaves no trace in the books. */
    method Acquire(task: TaskId, built: Engine, starts: bool) returns (r: Acquired)
      requires Valid() && built !in place
      modifies this
      ensures r.Got? <==> old(idle) != [] || (old(started) < maxSize && starts)
      ensures r.Full? <==> old(idle) == [] && old(started) >= maxSize
      ensures r.Got? || r.Full? || r.StartFailed?
      ensures r.Got? ==> busy == old(busy)[task := Some(r.engine)] && (Valid() <==> task !in old(busy))
      ensures r.Got? ==> place == old(place)[r.engine := Busy(task)]
      ensures r.Got? && old(idle) != [] ==>
        var last := |old(idle)| - 1;
        r.engine == old(idle)[last] && idle == old(idle)[..last] && started == old(started)
      ensures r.Got? && old(idle) == [] ==> r.engine == built && idle == [] && started == old(started) + 1
      ensures !r.Got? ==> Valid() && idle == old(idle) && busy == old(busy) && started == old(started)
      ensures stopped == if r.StartFailed? then old(stopped) + [built] else old(stopped)
      ensures shut == old(shut)
    {
      if idle != [] {
        var e := TakeIdle(task, |idle| - 1);
        return Got(e);
      }
      if started < maxSize {
        if !starts {
          StopPlaces(idle, busy, stopped, place, built, idle, busy);
          stopped := stopped + [built];
          place := place[built := Stopped];
          return StartFailed;
        }
        Register(task, built);
        return Got(built);
      }
      return Full;
    }

    /** Takes the last idle engine out of the pool and stops it. */
    method RetireIdle()
      requires Valid() && idle != []
      modifies this
      ensures idle == old(idle)[..|old(idle)| - 1] && stopped == old(stopped) + [old(idle)[|old(idle)| - 1]]
      ensures started == old(started) - 1 && unchanged(this`busy, this`reserved, this`shut)
      ensures Valid()
    {
      var last := |idle| - 1;
      var e := idle[last];
      IdleWithout(idle, last);
      assert idle[..last] == idle[..last] + idle[last + 1..];
      StopPlaces(idle, busy, stopped, place, e, idle[..last], busy);
      idle := idle[..last];
      started := started - 1;
      stopped := stopped + [e];
      place := place[e := Stopped];
    }

    /** Reserves a slot without an engine, retiring an idle engine when the pool is full. */
    method Reserve(task: TaskId) returns (ok: bool)
      requires Valid()
      modifies this
      ensures Valid() && shut == old(shut)
      ensures ok <==> task !in old(busy) && (old(idle) != [] || old(started) < maxSize)
      ensures ok ==> busy == old(busy)[task := None] && task in reserved
      ensures ok && old(started) < maxSize ==> idle == old(idle) && stopped == old(stopped) && started == old(started) + 1
      ensures ok && old(started) >= maxSize ==>
        var last := |old(idle)| - 1;
        && last >= 0 && idle == old(idle)[..last] && stopped == old(stopped) + [old(idle)[last]]
        && started == old(started)
      ensures !ok ==> unchanged(this)
    {
      if task in busy { return false; }
      if started >= maxSize && idle != [] {
        RetireIdle();
      }
      if started >= maxSize { return false; }
      assert |busy[task := None]| == |busy| + 1;
      started := started + 1;
      reserved := reserved + {task};
      busy := busy[task := None];
      return true;
    }

    method FreeReservation(task: TaskId)
      requires Valid() && task in reserved
      modifies this
      ensures Valid() && busy == old(busy) - {task} && idle == old(idle) && started == old(started) - 1
      ensures stopped == old(stopped) && shut == old(shut)
    {
      assert |busy| == |busy - {task}| + 1 by { assert busy.Keys == (busy - {task}).Keys + {task}; }
      busy := busy - {task};
      reserved := reserved - {task};
      started := started - 1;
    }

    /** A sound engine goes idle; any other is stopped and its slot freed. */
    method ReturnEngine(task: TaskId, e: Engine, sound: bool)
      requires Valid() && task in busy && busy[task] == Some(e)
      modifies this
      ensures Valid() && busy == old(busy) - {task} && shut == old(shut)
      ensures idle == (if sound then old(idle) + [e] else old(idle))
      ensures stopped == (if sound then old(stopped) else old(stopped) + [e])
      ensures started == old(started) - if sound then 0 else 1
    {
      assert |busy| == |busy - {task}| + 1 by { assert busy.Keys == (busy - {task}).Keys + {task}; }
      if sound {
        IdlePlaces(idle, busy, stopped, place, task, e);
        busy := busy - {task};
        idle := idle + [e];
        place := place[e := Idle];
      } else {
        StopPlaces(idle, busy, stopped, place, e, idle, busy - {task});
        busy := busy - {task};
        started := started - 1;
        stopped := stopped + [e];
        place := place[e := Stopped];
      }
    }

    /** Gives the slot back: a reservation frees it, a sound engine goes idle, any other is stopped. */
    method Release(task: TaskId, p: Probe)
      requires Valid()
      modifies this
      ensures Valid() && shut == old(shut)
      ensures task !in old(busy) ==> unchanged(this)
      ensures busy == old(busy) - {task}
      ensures task in old(busy) ==>
        var e := old(busy)[task];
        if e.Some? && p.healthy(e.value) && !p.retiring(e.value)
        then idle == old(idle) + [e.value] && started == old(started) && stopped == old(stopped)
        else idle == old(idle) && started == old(started) - 1
             && stopped == if e.Some? then old(stopped) + [e.value] else old(stopped)
      ensures task in old(busy) ==> HasCapacity()
    {
      if task !in busy {
        assert busy == busy - {task};
      } else if task in reserved {
        FreeReservation(task);
      } else {
        var e := busy[task].value;
        ReturnEngine(task, e, p.healthy(e) && !p.retiring(e));
      }
    }

    method BusyEngines() returns (engines: seq<Engine>)
      requires Valid()
      ensures ListsBusy(engines, busy)
    {
      engines := [];
      var todo := busy.Keys;
      while todo != {}
        invariant todo <= busy.Keys
        invariant forall i, j | 0 <= i < j < |engines| :: engines[i] != engines[j]
        invariant forall e :: e in engines <==> exists t :: t in busy && t !in todo && busy[t] == Some(e)
        decreases todo
      {
        var t :| t in todo;
        todo := todo - {t};
        if busy[t].Some? {
          engines := engines + [busy[t].value];
        }
      }
    }

    /** Hands every live engine to stop, each once, and empties the pool; the slot counter keeps its value. */
    method StopAll()
      requires Valid()
      modifies this
      ensures Valid() && shut && idle == [] && busy == map[] && reserved == {} && started == old(started)
      ensures old(stopped) <= stopped && ListsLive(stopped[|old(stopped)|..], old(idle), old(busy))
      ensures HasCapacity() <==> started < maxSize
    {
      var working := BusyEngines();
      var engines := working + idle;
      JoinedEngines(working, idle, stopped, busy);
      StopAllPlaces(idle, busy, stopped, place, working);
      EmptySlots(maxSize, idle, busy, reserved, started, shut);
      Emptied(engines);
    }

    /** The last writes of `StopAll`. */
    method Emptied(engines: seq<Engine>)
      modifies this
      ensures idle == [] && busy == map[] && reserved == {} && shut && started == old(started)
      ensures stopped == old(stopped) + engines && place == map e | e in old(place) :: Stopped
    {
      stopped := stopped + engines;
      idle, busy, reserved := [], map[], {};
      place := map e | e in place :: Stopped;
      shut := true;
    }
  }

  lemma IdlePlaces(idle: seq<Engine>, busy: Tasks, stopped: seq<Engine>, place: Places, task: TaskId, e: Engine)
    requires PlacesOk(idle, busy, stopped, place) && task in busy && busy[task] == Some(e)
    ensures PlacesOk(idle + [e], busy - {task}, stopped, place[e := Idle])
  {
    assert (idle + [e])[|idle|] == e;
    assert forall x :: x in idle + [e] <==> x in idle || x == e;
  }

  lemma EmptySlots(
    maxSize: nat, idle: seq<Engine>, busy: Tasks, reserved: set<TaskId>, started: int, shut: bool)
    requires SlotsOk(maxSize, idle, busy, reserved, started, shut)
    ensures SlotsOk(maxSize, [], map[], {}, started, true)
  {
  }

  lemma JoinedEngines(working: seq<Engine>, idle: seq<Engine>, stopped: seq<Engine>, busy: Tasks)
    requires ListsBusy(working, busy)
    ensures ListsLive(working + idle, idle, busy) && (stopped + (working + idle))[|stopped|..] == working + idle
  {
    assert forall e :: e in working + idle <==> e in working || e in idle;
  }

  /** Stopping the busy engines and the idle ones stops every engine not stopped before, each once. */
  lemma StopAllPlaces(idle: seq<Engine>, busy: Tasks, stopped: seq<Engine>, place: Places, working: seq<Engine>)
    requires PlacesOk(idle, busy, stopped, place) && ListsBusy(working, busy)
    ensures PlacesOk([], map[], stopped + (working + idle), map e | e in place :: Stopped)
  {
    var all := stopped + (working + idle);
    assert forall e :: e in all <==> e in stopped || e in working || e in idle;
    var n := |stopped| + |working|;
    forall i, j | 0 <= i < j < |all| ensures all[i] != all[j] {
      if i < |stopped| <= j {
        assert all[i] in stopped && (all[j] in working || all[j] in idle);
      } else if |stopped| <= i < n <= j {
        assert all[i] in working && all[j] in idle;
      }
    }
    forall e | e in place ensures e in all {
      match place[e]
      case Idle =>
      case Busy(t) => assert Works(busy, e);
      case Stopped =>
    }
  }

  /** One task id acquired twice: the first engine is lost from the books. */
  method AcquireTwice() returns (pool: Pool)
    ensures fresh(pool) && !pool.Valid()
  {
    pool := new Pool(2);
    var first := pool.Acquire(1, 10, true);
    assert pool.Valid() && pool.place == map[10 := Busy(1)] && pool.busy == map[1 := Some(10)];
    assert pool.HasCapacity();
    var second := pool.Acquire(1, 11, true);
  }
}
