/**
  The hash-chained dispatch log: appending, validating, what an intact last hash vouches for,
  and the order of blind submissions and steers in a log that passes.
 */
module DispatchLog {
  import opened Common

  /** JSON values; `Other` stands for numbers with a fraction, lists and objects. */
  datatype Json = Null | Bool(b: bool) | Int(n: int) | Str(s: string) | Other(tag: nat)

  /** Field names: the ones the log owns, and any other. */
  datatype Key = SeqNo | EventType | Seat | Channel | Timestamp | ArtifactHash | PrevHash | LogRef | EventHash
               | Extra(name: string)

  type Event = map<Key, Json>

  /** The digest of an event's canonical serialisation. */
  type Digest = Event -> string

  ghost predicate Injective(hash: Digest) {
    forall a, b :: hash(a) == hash(b) ==> a == b
  }

  function Get(e: Event, key: Key): Json {
    if key in e then e[key] else Null
  }

  /** Booleans are integers to the language the log is validated in. */
  function Canon(j: Json): Json {
    if j.Bool? then Int(if j.b then 1 else 0) else j
  }

  predicate Same(a: Json, b: Json) {
    Canon(a) == Canon(b)
  }

  predicate HasSeq(e: Event) {
    Canon(Get(e, SeqNo)).Int?
  }

  function Seq(e: Event): int
    requires HasSeq(e)
  {
    Canon(Get(e, SeqNo)).n
  }

  const REQUIRED: seq<Key> := [EventType, Seat, Channel, Timestamp, ArtifactHash, EventHash]

  // ---------------------------------------------------------------------------
  // Validation
  // ---------------------------------------------------------------------------

  datatype Reason = MissingSeq | DuplicateSeq | MissingField(field: Key) | HashChain

  function Unsealed(e: Event): Event {
    e - {EventHash}
  }

  /** A null hash is not checked. */
  predicate SealOk(hash: Digest, e: Event) {
    Get(e, EventHash).Null? || Get(e, EventHash) == Str(hash(Unsealed(e)))
  }

  function HashBefore(log: seq<Event>, i: nat): Json
    requires i <= |log|
  {
    if i == 0 then Null else Get(log[i - 1], EventHash)
  }

  predicate LinkOk(hash: Digest, log: seq<Event>, i: nat)
    requires i < |log|
  {
    Same(Get(log[i], PrevHash), HashBefore(log, i)) && SealOk(hash, log[i])
  }

  predicate Numbered(log: seq<Event>, i: nat)
    requires i < |log|
  {
    HasSeq(log[i]) && Seq(log[i]) == i + 1
  }

  predicate Filled(e: Event) {
    forall f | f in REQUIRED :: f in e
  }

  predicate Good(hash: Digest, log: seq<Event>, i: nat)
    requires i < |log|
  {
    Numbered(log, i) && Filled(log[i]) && LinkOk(hash, log, i)
  }

  ghost predicate Valid(hash: Digest, log: seq<Event>) {
    forall i | 0 <= i < |log| :: Good(hash, log, i)
  }

  /** The value is that number; true and false are 1 and 0. */
  ghost predicate IsNumber(j: Json, n: int) {
    j == Int(n) || (n == 1 && j == Bool(true)) || (n == 0 && j == Bool(false))
  }

  ghost predicate EqualValues(a: Json, b: Json) {
    a == b || exists n :: IsNumber(a, n) && IsNumber(b, n)
  }

  /** Event `i` carries the number `i + 1` and every field the log requires, links to the hash of the event
      before it, and has its own hash, unless that is null. */
  ghost predicate SoundAt(hash: Digest, log: seq<Event>, i: nat)
    requires i < |log|
  {
    var e := log[i];
    && SeqNo in e && IsNumber(e[SeqNo], i + 1)
    && EventType in e && Seat in e && Channel in e && Timestamp in e && ArtifactHash in e && EventHash in e
    && (if i == 0 then PrevHash !in e || e[PrevHash] == Null
        else EqualValues(Get(e, PrevHash), Get(log[i - 1], EventHash)))
    && (e[EventHash] == Null || e[EventHash] == Str(hash(e - {EventHash})))
  }

  lemma SameIffEqual(a: Json, b: Json)
    ensures Same(a, b) <==> EqualValues(a, b)
  {
    if Same(a, b) && a != b {
      assert IsNumber(a, Canon(a).n) && IsNumber(b, Canon(a).n);
    }
  }

  lemma GoodMeans(hash: Digest, log: seq<Event>, i: nat)
    requires i < |log|
    ensures Good(hash, log, i) <==> SoundAt(hash, log, i)
  {
    SameIffEqual(Get(log[i], PrevHash), HashBefore(log, i));
    assert Filled(log[i]) <==>
      && EventType in log[i] && Seat in log[i] && Channel in log[i] && Timestamp in log[i]
      && ArtifactHash in log[i] && EventHash in log[i] by { RequiredMeans(log[i]); }
  }

  lemma RequiredMeans(e: Event)
    ensures Filled(e) <==>
      EventType in e && Seat in e && Channel in e && Timestamp in e && ArtifactHash in e && EventHash in e
  {
    assert REQUIRED[0] == EventType && REQUIRED[1] == Seat && REQUIRED[2] == Channel;
    assert REQUIRED[3] == Timestamp && REQUIRED[4] == ArtifactHash && REQUIRED[5] == EventHash;
  }

  /** A log is valid exactly when every event is sound at its place. */
  lemma ValidMeans(hash: Digest, log: seq<Event>)
    ensures Valid(hash, log) <==> forall i | 0 <= i < |log| :: SoundAt(hash, log, i)
  {
    forall i | 0 <= i < |log| ensures Good(hash, log, i) <==> SoundAt(hash, log, i) {
      GoodMeans(hash, log, i);
    }
  }

  lemma ValidEverywhere(hash: Digest, log: seq<Event>)
    requires Valid(hash, log)
    ensures forall i | 0 <= i < |log| :: HasSeq(log[i]) && Seq(log[i]) == i + 1 && Filled(log[i])
    ensures forall i | 0 <= i < |log| :: LinkOk(hash, log, i)
  {
    forall i | 0 <= i < |log| ensures Numbered(log, i) && Filled(log[i]) && LinkOk(hash, log, i) {
      assert Good(hash, log, i);
    }
  }

  /** The events that carry a sequence number at all; the others are only reported. */
  ghost function Kept(log: seq<Event>): (r: seq<Event>)
    ensures |r| <= |log| && forall i | 0 <= i < |r| :: HasSeq(r[i])
    ensures |r| == |log| ==> r == log
  {
    if log == [] then []
    else
      var last := log[|log| - 1];
      Kept(log[..|log| - 1]) + if HasSeq(last) then [last] else []
  }

  type Kepts = log: seq<Event> | forall i | 0 <= i < |log| :: HasSeq(log[i])

  ghost predicate Misnumbered(kept: Kepts) {
    exists i | 0 <= i < |kept| :: !Numbered(kept, i)
  }

  ghost predicate HoldsSeq(kept: Kepts, n: int) {
    exists i | 0 <= i < |kept| :: Seq(kept[i]) == n
  }

  ghost predicate Repeats(kept: Kepts) {
    exists i, j | 0 <= i < j < |kept| :: Seq(kept[i]) == Seq(kept[j])
  }

  ghost predicate Lacks(kept: Kepts, field: Key) {
    exists i | 0 <= i < |kept| :: field !in kept[i]
  }

  ghost predicate Unlinked(hash: Digest, kept: Kepts) {
    exists i | 0 <= i < |kept| :: !LinkOk(hash, kept, i)
  }

  /** What the reported reasons mean, one by one, over the kept events. */
  ghost predicate Explains(hash: Digest, kept: Kepts, skipped: bool, reasons: set<Reason>) {
    && (MissingSeq in reasons <==> skipped || Misnumbered(kept))
    && (DuplicateSeq in reasons <==> Repeats(kept))
    && (forall f :: MissingField(f) in reasons <==> f in REQUIRED && Lacks(kept, f))
    && (HashChain in reasons <==> Unlinked(hash, kept))
  }

  lemma OneMoreNumber(kept: Kepts, e: Event)
    requires HasSeq(e)
    ensures Misnumbered(kept + [e]) <==> Misnumbered(kept) || Seq(e) != |kept| + 1
    ensures Repeats(kept + [e]) <==> Repeats(kept) || HoldsSeq(kept, Seq(e))
  {
    var more := kept + [e];
    assert more[|kept|] == e;
    assert forall i | 0 <= i < |kept| :: more[i] == kept[i] && (Numbered(more, i) <==> Numbered(kept, i));
    assert Numbered(more, |kept|) <==> Seq(e) == |kept| + 1;
    if HoldsSeq(kept, Seq(e)) {
      var i :| 0 <= i < |kept| && Seq(kept[i]) == Seq(e);
      assert Seq(more[i]) == Seq(more[|kept|]);
    }
    if Repeats(kept) {
      var i, j :| 0 <= i < j < |kept| && Seq(kept[i]) == Seq(kept[j]);
      assert Seq(more[i]) == Seq(more[j]);
    }
  }

  lemma SeqsOneMore(kept: Kepts, e: Event)
    requires HasSeq(e)
    ensures forall n :: HoldsSeq(kept + [e], n) <==> HoldsSeq(kept, n) || n == Seq(e)
  {
    var more := kept + [e];
    assert more[|kept|] == e;
    forall n ensures HoldsSeq(more, n) <==> HoldsSeq(kept, n) || n == Seq(e) {
      if HoldsSeq(kept, n) {
        var i :| 0 <= i < |kept| && Seq(kept[i]) == n;
        assert Seq(more[i]) == n;
      }
    }
  }

  lemma OneMoreLink(hash: Digest, kept: Kepts, e: Event)
    requires HasSeq(e)
    ensures forall f :: Lacks(kept + [e], f) <==> Lacks(kept, f) || f !in e
    ensures Unlinked(hash, kept + [e]) <==>
      Unlinked(hash, kept) || !Same(Get(e, PrevHash), HashBefore(kept, |kept|)) || !SealOk(hash, e)
  {
    var more := kept + [e];
    forall f ensures Lacks(more, f) <==> Lacks(kept, f) || f !in e {
      assert more[|kept|] == e;
      if Lacks(kept, f) {
        var i :| 0 <= i < |kept| && f !in kept[i];
        assert f !in more[i];
      }
    }
    assert forall i | 0 <= i < |kept| :: LinkOk(hash, more, i) <==> LinkOk(hash, kept, i);
    assert LinkOk(hash, more, |kept|) <==> Same(Get(e, PrevHash), HashBefore(kept, |kept|)) && SealOk(hash, e);
  }

  lemma CleanIsValid(hash: Digest, log: Kepts)
    requires !Misnumbered(log) && !Unlinked(hash, log) && forall f | f in REQUIRED :: !Lacks(log, f)
    ensures Valid(hash, log)
  {
    forall i, f | 0 <= i < |log| && f in REQUIRED ensures f in log[i] {
      assert !Lacks(log, f);
    }
  }

  lemma ValidIsClean(hash: Digest, log: Kepts)
    requires Valid(hash, log)
    ensures !Misnumbered(log) && !Repeats(log) && !Unlinked(hash, log) && forall f | f in REQUIRED :: !Lacks(log, f)
  {
    ValidEverywhere(hash, log);
  }

  lemma NoReasonsIffClean(hash: Digest, kept: Kepts, skipped: bool, reasons: set<Reason>)
    requires Explains(hash, kept, skipped, reasons)
    ensures reasons == {} <==> !skipped && Valid(hash, kept)
  {
    if reasons == {} {
      forall f | f in REQUIRED ensures !Lacks(kept, f) {
        assert MissingField(f) !in reasons;
      }
      CleanIsValid(hash, kept);
    }
    if !skipped && Valid(hash, kept) {
      ValidIsClean(hash, kept);
      forall r ensures r !in reasons {
        match r
        case MissingField(f) =>
        case HashChain =>
        case MissingSeq =>
        case DuplicateSeq =>
      }
    }
  }

  lemma NoReasonsIffValid(hash: Digest, log: seq<Event>, reasons: set<Reason>)
    requires Explains(hash, Kept(log), |Kept(log)| < |log|, reasons)
    ensures reasons == {} <==> Valid(hash, log)
  {
    NoReasonsIffClean(hash, Kept(log), |Kept(log)| < |log|, reasons);
    if Valid(hash, log) {
      ValidEverywhere(hash, log);
      AllKept(log);
    }
  }

  lemma {:induction false} AllKept(log: seq<Event>)
    requires forall i | 0 <= i < |log| :: HasSeq(log[i])
    ensures Kept(log) == log
  {
    if log != [] {
      AllKept(log[..|log| - 1]);
    }
  }

  method MissingFields(e: Event, reasons0: set<Reason>) returns (reasons: set<Reason>)
    ensures forall r :: r in reasons <==>
      r in reasons0 || (r.MissingField? && r.field in REQUIRED && r.field !in e)
  {
    reasons := reasons0;
    for k := 0 to |REQUIRED|
      invariant forall r :: r in reasons <==>
        r in reasons0 || (r.MissingField? && r.field in REQUIRED[..k] && r.field !in e)
    {
      if REQUIRED[k] !in e {
        reasons := reasons + {MissingField(REQUIRED[k])};
      }
      assert REQUIRED[..k + 1] == REQUIRED[..k] + [REQUIRED[k]];
    }
    assert REQUIRED[..|REQUIRED|] == REQUIRED;
  }

  /** What the validator carries from one event to the next. */
  datatype Scan = Scan(seen: set<int>, expected: int, previous: Json, reasons: set<Reason>)

  ghost predicate ScanOk(hash: Digest, kept: Kepts, skipped: bool, scan: Scan) {
    && scan.expected == |kept| + 1 && scan.previous == HashBefore(kept, |kept|)
    && (forall n :: n in scan.seen <==> HoldsSeq(kept, n))
    && Explains(hash, kept, skipped, scan.reasons)
  }

  /** The reasons one event that carries a number adds. */
  method EventReasons(hash: Digest, e: Event, scan: Scan, ghost kept: Kepts, ghost skipped: bool)
    returns (reasons: set<Reason>)
    requires HasSeq(e) && ScanOk(hash, kept, skipped, scan)
    ensures Explains(hash, kept + [e], skipped, reasons)
  {
    reasons := scan.reasons;
    if Seq(e) in scan.seen { reasons := reasons + {DuplicateSeq}; }
    if Seq(e) != scan.expected { reasons := reasons + {MissingSeq}; }
    reasons := MissingFields(e, reasons);
    if !Same(Get(e, PrevHash), scan.previous) { reasons := reasons + {HashChain}; }
    if !SealOk(hash, e) { reasons := reasons + {HashChain}; }
    OneMoreNumber(kept, e);
    OneMoreLink(hash, kept, e);
  }

  /** The checks on one event that carries a number. */
  method CheckEvent(hash: Digest, e: Event, scan: Scan, ghost kept: Kepts, ghost skipped: bool) returns (next: Scan)
    requires HasSeq(e) && ScanOk(hash, kept, skipped, scan)
    ensures ScanOk(hash, kept + [e], skipped, next)
  {
    var reasons := EventReasons(hash, e, scan, kept, skipped);
    SeqsOneMore(kept, e);
    next := Scan(scan.seen + {Seq(e)}, scan.expected + 1, Get(e, EventHash), reasons);
  }

  lemma KeptOneMore(log: seq<Event>, k: nat)
    requires k < |log|
    ensures Kept(log[..k + 1]) == Kept(log[..k]) + if HasSeq(log[k]) then [log[k]] else []
  {
    assert log[..k + 1][..k] == log[..k];
  }

  /** An event without a number is reported and otherwise left aside. */
  lemma SkippedOneMore(hash: Digest, kept: Kepts, skipped: bool, scan: Scan)
    requires ScanOk(hash, kept, skipped, scan)
    ensures ScanOk(hash, kept, true, scan.(reasons := scan.reasons + {MissingSeq}))
  {
  }

  method Validate(hash: Digest, log: seq<Event>) returns (reasons: set<Reason>)
    ensures Explains(hash, Kept(log), |Kept(log)| < |log|, reasons)
    ensures reasons == {} <==> Valid(hash, log)
  {
    var scan := Scan({}, 1, Null, {});
    ghost var kept: Kepts := [];
    for k := 0 to |log|
      invariant kept == Kept(log[..k])
      invariant ScanOk(hash, kept, |kept| < k, scan)
    {
      KeptOneMore(log, k);
      if HasSeq(log[k]) {
        scan := CheckEvent(hash, log[k], scan, kept, |kept| < k);
        kept := kept + [log[k]];
      } else {
        SkippedOneMore(hash, kept, |kept| < k, scan);
        scan := scan.(reasons := scan.reasons + {MissingSeq});
      }
    }
    assert log[..|log|] == log;
    reasons := scan.reasons;
    NoReasonsIffValid(hash, log, reasons);
  }

  // ---------------------------------------------------------------------------
  // Appending
  // ---------------------------------------------------------------------------

  datatype Stamp = Stamp(eventType: string, seat: string, channel: string, timestamp: string,
                         artifactHash: string, logRef: string)

  /** Field names that are parameters of the append itself, so a caller cannot pass them twice. */
  const PARAMETERS: set<Key> := {EventType, Seat, Channel, Timestamp}

  function Draft(log: seq<Event>, stamp: Stamp, extra: Event): Event {
    map[SeqNo := Int(|log| + 1), EventType := Str(stamp.eventType), Seat := Str(stamp.seat),
        Channel := Str(stamp.channel), Timestamp := Str(stamp.timestamp),
        ArtifactHash := Str(stamp.artifactHash), PrevHash := HashBefore(log, |log|),
        LogRef := Str(stamp.logRef)] + extra
  }

  /** The hash covers the draft, a caller's own `event_hash` field included; then it replaces that field. */
  function Seal(hash: Digest, draft: Event): Event {
    draft[EventHash := Str(hash(draft))]
  }

  /** The extra fields that leave the chain intact: no seal of their own, no other link. */
  predicate Harmless(log: seq<Event>, extra: Event) {
    EventHash !in extra && (PrevHash in extra ==> Same(extra[PrevHash], HashBefore(log, |log|)))
  }

  lemma SealHolds(hash: Digest, draft: Event)
    requires Injective(hash)
    ensures SealOk(hash, Seal(hash, draft)) <==> EventHash !in draft
  {
    var e := Seal(hash, draft);
    if EventHash in draft {
      assert EventHash !in Unsealed(e);
    } else {
      assert Unsealed(e) == draft;
    }
  }

  lemma PrefixGood(hash: Digest, log: seq<Event>, e: Event, i: nat)
    requires i < |log|
    ensures Good(hash, log + [e], i) <==> Good(hash, log, i)
  {
    assert (log + [e])[i] == log[i] && HashBefore(log + [e], i) == HashBefore(log, i);
  }

  lemma ValidPrefix(hash: Digest, log: seq<Event>, e: Event)
    ensures Valid(hash, log + [e]) <==> Valid(hash, log) && Good(hash, log + [e], |log|)
  {
    forall i | 0 <= i < |log| ensures Good(hash, log + [e], i) <==> Good(hash, log, i) {
      PrefixGood(hash, log, e, i);
    }
  }

  /** Appending keeps a log valid exactly when the extra fields do not touch the seal or the link. */
  lemma AppendKeepsValid(hash: Digest, log: seq<Event>, stamp: Stamp, extra: Event)
    requires Injective(hash) && SeqNo !in extra && extra.Keys !! PARAMETERS
    ensures Valid(hash, log + [Seal(hash, Draft(log, stamp, extra))]) <==> Valid(hash, log) && Harmless(log, extra)
  {
    var draft := Draft(log, stamp, extra);
    var e := Seal(hash, draft);
    ValidPrefix(hash, log, e);
    SealHolds(hash, draft);
    assert Get(e, SeqNo) == Int(|log| + 1);
    assert Filled(e);
    assert Get(e, PrevHash) == if PrevHash in extra then extra[PrevHash] else HashBefore(log, |log|);
  }

  /** What an appended event says: the next number, the stamp's fields each under its name, the link, every
      extra field over those, and the hash of all of it. */
  ghost predicate Stamped(hash: Digest, log: seq<Event>, stamp: Stamp, extra: Event, e: Event) {
    && e.Keys == {SeqNo, EventType, Seat, Channel, Timestamp, ArtifactHash, PrevHash, LogRef, EventHash} + extra.Keys
    && e[SeqNo] == Int(|log| + 1) && e[EventType] == Str(stamp.eventType) && e[Seat] == Str(stamp.seat)
    && e[Channel] == Str(stamp.channel) && e[Timestamp] == Str(stamp.timestamp)
    && (ArtifactHash !in extra ==> e[ArtifactHash] == Str(stamp.artifactHash))
    && (LogRef !in extra ==> e[LogRef] == Str(stamp.logRef))
    && (PrevHash !in extra ==> e[PrevHash] == if log == [] then Null else Get(log[|log| - 1], EventHash))
    && (forall key | key in extra && key != EventHash :: e[key] == extra[key])
    && e[EventHash] == Str(hash(if EventHash in extra then e[EventHash := extra[EventHash]] else e - {EventHash}))
  }

  lemma SealedIsStamped(hash: Digest, log: seq<Event>, stamp: Stamp, extra: Event)
    requires SeqNo !in extra && extra.Keys !! PARAMETERS
    ensures Stamped(hash, log, stamp, extra, Seal(hash, Draft(log, stamp, extra)))
  {
    var draft := Draft(log, stamp, extra);
    var e := Seal(hash, draft);
    if EventHash in extra {
      assert e[EventHash := extra[EventHash]] == draft;
    } else {
      assert e - {EventHash} == draft;
    }
  }

  datatype Refusal = SeqSupplied | NoHashToLink

  datatype Appended = Written(event: Event) | Refused(why: Refusal)

  /** The log file. */
  class LogFile {
    var events: seq<Event>

    constructor ()
      ensures events == []
    {
      events := [];
    }

    method Append(hash: Digest, stamp: Stamp, extra: Event) returns (r: Appended)
      requires extra.Keys !! PARAMETERS
      modifies this
      ensures r.Refused? <==> SeqNo in extra || (old(events) != [] && EventHash !in old(events)[|old(events)| - 1])
      ensures r.Refused? ==> events == old(events) && (r.why.SeqSupplied? <==> SeqNo in extra)
      ensures r.Written? ==> events == old(events) + [r.event] && Stamped(hash, old(events), stamp, extra, r.event)
      ensures r.Written? ==> r.event == Seal(hash, Draft(old(events), stamp, extra))
      ensures r.Written? && Injective(hash) ==>
        (Valid(hash, events) <==> Valid(hash, old(events)) && Harmless(old(events), extra))
    {
      if SeqNo in extra {
        return Refused(SeqSupplied);
      }
      if events != [] && EventHash !in events[|events| - 1] {
        return Refused(NoHashToLink);
      }
      var e := Seal(hash, Draft(events, stamp, extra));
      SealedIsStamped(hash, events, stamp, extra);
      if Injective(hash) {
        AppendKeepsValid(hash, events, stamp, extra);
      }
      events := events + [e];
      return Written(e);
    }
  }

  // ---------------------------------------------------------------------------
  // What the last hash vouches for
  // ---------------------------------------------------------------------------

  function Tip(log: seq<Event>): Json {
    HashBefore(log, |log|)
  }

  ghost predicate AllSealed(log: seq<Event>) {
    forall i | 0 <= i < |log| :: Get(log[i], EventHash).Str?
  }

  lemma SealedEventsAgree(hash: Digest, a: Event, b: Event)
    requires Injective(hash) && SealOk(hash, a) && SealOk(hash, b)
    requires EventHash in a && EventHash in b && Get(a, EventHash) == Get(b, EventHash) && Get(a, EventHash).Str?
    ensures a == b
  {
    assert Unsealed(a) == Unsealed(b);
    assert a == Unsealed(a)[EventHash := a[EventHash]] && b == Unsealed(b)[EventHash := b[EventHash]];
  }

  /** A valid log whose events are all sealed is the only valid log with its last hash. */
  lemma {:induction false} TipVouchesForLog(hash: Digest, a: seq<Event>, b: seq<Event>)
    requires Injective(hash) && Valid(hash, a) && Valid(hash, b) && AllSealed(a)
    requires a != [] && b != [] && Tip(a) == Tip(b)
    ensures a == b
  {
    var m, n := |a| - 1, |b| - 1;
    var u, v := a[..m], b[..n];
    assert a == u + [a[m]] && b == v + [b[n]];
    assert Good(hash, a, m) && Good(hash, b, n);
    SealedEventsAgree(hash, a[m], b[n]);
    assert m == n;
    ValidPrefix(hash, u, a[m]);
    ValidPrefix(hash, v, b[n]);
    if u != [] {
      assert Get(a[m - 1], EventHash).Str?;
      assert Same(Tip(u), Tip(v));
      TipVouchesForLog(hash, u, v);
    }
  }

  /** Rewrites the artifact of one event whose hash is null. */
  function Retouched(log: seq<Event>, i: nat): seq<Event>
    requires i < |log|
  {
    log[i := log[i][ArtifactHash := if Get(log[i], ArtifactHash) == Null then Int(0) else Null]]
  }

  lemma RetouchedIsValid(hash: Digest, log: seq<Event>, i: nat)
    requires Valid(hash, log) && i < |log| && Get(log[i], EventHash).Null?
    ensures Valid(hash, Retouched(log, i)) && Tip(Retouched(log, i)) == Tip(log) && Retouched(log, i) != log
  {
    var other := Retouched(log, i);
    assert other[i][ArtifactHash] != Get(log[i], ArtifactHash);
    assert forall j | 0 <= j < |log| :: Get(other[j], EventHash) == Get(log[j], EventHash);
    forall j | 0 <= j < |other| ensures Good(hash, other, j) {
      assert Good(hash, log, j);
      assert HashBefore(other, j) == HashBefore(log, j);
    }
  }

  /** Another valid log has the same last hash exactly when some event's hash was left null. */
  lemma TamperableIffUnsealed(hash: Digest, log: seq<Event>)
    requires Injective(hash) && Valid(hash, log) && log != []
    ensures (exists other: seq<Event> :: other != [] && other != log && Valid(hash, other) && Tip(other) == Tip(log))
       <==> exists i | 0 <= i < |log| :: Get(log[i], EventHash).Null?
  {
    if i :| 0 <= i < |log| && Get(log[i], EventHash).Null? {
      RetouchedIsValid(hash, log, i);
    } else {
      forall i | 0 <= i < |log| ensures Get(log[i], EventHash).Str? {
        assert Good(hash, log, i);
      }
      forall other: seq<Event> | other != [] && Valid(hash, other) && Tip(other) == Tip(log) ensures other == log {
        TipVouchesForLog(hash, log, other);
      }
    }
  }

  // ---------------------------------------------------------------------------
  // Two logs that show it
  // ---------------------------------------------------------------------------

  /** A one-event log whose hash was left null. */
  function Unhashed(artifact: Json): seq<Event> {
    [map[SeqNo := Int(1), EventType := Str("steer_sent"), Seat := Str("a"), Channel := Str("c"),
         Timestamp := Str("t"), ArtifactHash := artifact, PrevHash := Null, EventHash := Null]]
  }

  /** It is valid whatever its artifact, and so are two such logs with one last hash. */
  lemma UnhashedIsValid(hash: Digest, artifact: Json)
    ensures Valid(hash, Unhashed(artifact)) && Tip(Unhashed(artifact)) == Null
  {
    var log := Unhashed(artifact);
    assert Filled(log[0]) && Numbered(log, 0) && LinkOk(hash, log, 0);
  }

  const FIRST := Stamp("steer_sent", "a", "c", "t", "h", "log")

  /** A first event appended with a caller's own `event_hash` field makes an invalid log. */
  lemma OwnHashBreaks(hash: Digest)
    requires Injective(hash)
    ensures !Valid(hash, [Seal(hash, Draft([], FIRST, map[EventHash := Str("mine")]))])
  {
    AppendKeepsValid(hash, [], FIRST, map[EventHash := Str("mine")]);
    assert [] + [Seal(hash, Draft([], FIRST, map[EventHash := Str("mine")]))]
        == [Seal(hash, Draft([], FIRST, map[EventHash := Str("mine")]))];
  }

  // ---------------------------------------------------------------------------
  // Blind submissions come before steers
  // ---------------------------------------------------------------------------

  datatype Block = DispatchLogInvalid | EarlySteerReveal

  predicate IsType(e: Event, name: string) {
    Get(e, EventType) == Str(name)
  }

  /** The sequence numbers of the events of one type, in log order. */
  function SeqsOf(log: seq<Event>, name: string): seq<int> {
    if log == [] then []
    else (if IsType(log[0], name) && HasSeq(log[0]) then [Seq(log[0])] else []) + SeqsOf(log[1..], name)
  }

  function MaxOf(s: seq<int>): (m: Option<int>)
    ensures m.None? <==> s == []
    ensures m.Some? ==> m.value in s && forall x | x in s :: x <= m.value
  {
    if s == [] then None
    else
      assert s == [s[0]] + s[1..];
      var rest := MaxOf(s[1..]);
      if rest.None? || rest.value < s[0] then Some(s[0]) else rest
  }

  function MinOf(s: seq<int>): (m: Option<int>)
    ensures m.None? <==> s == []
    ensures m.Some? ==> m.value in s && forall x | x in s :: m.value <= x
  {
    if s == [] then None
    else
      assert s == [s[0]] + s[1..];
      var rest := MinOf(s[1..]);
      if rest.None? || s[0] < rest.value then Some(s[0]) else rest
  }

  lemma {:induction false} SeqsOfHolds(log: seq<Event>, name: string, n: int)
    ensures n in SeqsOf(log, name) <==>
      exists i | 0 <= i < |log| :: IsType(log[i], name) && HasSeq(log[i]) && Seq(log[i]) == n
  {
    if log != [] {
      SeqsOfHolds(log[1..], name, n);
      assert forall i | 0 <= i < |log| - 1 :: log[1..][i] == log[i + 1];
    }
  }

  /** Position `i` of a valid log holds an event of the given type. */
  ghost predicate TypeAt(log: seq<Event>, i: int, name: string) {
    0 <= i < |log| && EventType in log[i] && log[i][EventType] == Str(name)
  }

  lemma ValidSeqsArePositions(hash: Digest, log: seq<Event>, name: string, n: int)
    requires Valid(hash, log)
    ensures n in SeqsOf(log, name) <==> TypeAt(log, n - 1, name)
  {
    SeqsOfHolds(log, name, n);
    ValidEverywhere(hash, log);
  }

  const STEER := "steer_sent"
  const BLIND := "blind_submission_received"

  /** A log passes exactly when it is valid, has both kinds, and every blind submission precedes every steer. */
  method DispatchBlocks(hash: Digest, log: seq<Event>) returns (blocks: seq<Block>)
    ensures blocks == [] <==>
      && Valid(hash, log)
      && (exists i :: TypeAt(log, i, "steer_sent")) && (exists j :: TypeAt(log, j, "blind_submission_received"))
      && forall i, j | TypeAt(log, i, "steer_sent") && TypeAt(log, j, "blind_submission_received") :: j < i
    ensures blocks == [] || blocks == [DispatchLogInvalid] || blocks == [EarlySteerReveal]
    ensures DispatchLogInvalid in blocks <==> log == [] || !Valid(hash, log)
  {
    var reasons := Validate(hash, log);
    if log == [] || reasons != {} {
      return [DispatchLogInvalid];
    }
    var steer, blind := MinOf(SeqsOf(log, STEER)), MaxOf(SeqsOf(log, BLIND));
    forall i ensures TypeAt(log, i, STEER) <==> i + 1 in SeqsOf(log, STEER) {
      ValidSeqsArePositions(hash, log, STEER, i + 1);
    }
    forall j ensures TypeAt(log, j, BLIND) <==> j + 1 in SeqsOf(log, BLIND) {
      ValidSeqsArePositions(hash, log, BLIND, j + 1);
    }
    if steer.None? || blind.None? {
      return [EarlySteerReveal];
    }
    assert TypeAt(log, steer.value - 1, STEER) && TypeAt(log, blind.value - 1, BLIND);
    if steer.value <= blind.value {
      return [EarlySteerReveal];
    }
    return [];
  }
}
