/**
  Attributing a change of the base checkout: two counters, read under one lock before and after a
  worktree turn, decide whether some base-checkout turn overlapped it.
 */
module BaseOverlap {
  import opened Common

  /** The base checkout as the gate fingerprints it: the transient and sentinel files on their own, if they
      are there, and everything else in one digest. */
  datatype Checkout = Checkout(fingerprint: nat, transient: Option<nat>, sentinel: Option<nat>)

  /** What happens to the base checkout, in the order it happens. `Foreign` is any writer that is
      not a counted base turn: a worktree turn that escaped. */
  datatype Event =
    | Start
    | Finish
    | BaseWrite(to: Checkout)
    | Foreign(to: Checkout)

  function Active(trace: seq<Event>): int {
    if trace == [] then 0
    else
      var last := trace[|trace| - 1];
      Active(trace[..|trace| - 1]) + if last.Start? then 1 else if last.Finish? then -1 else 0
  }

  function Generation(trace: seq<Event>): nat {
    if trace == [] then 0
    else Generation(trace[..|trace| - 1]) + if trace[|trace| - 1].Start? then 1 else 0
  }

  function Content(initial: Checkout, trace: seq<Event>): Checkout {
    if trace == [] then initial
    else
      var last := trace[|trace| - 1];
      if last.BaseWrite? || last.Foreign? then last.to else Content(initial, trace[..|trace| - 1])
  }

  /** Only a counted turn finishes, and a base turn writes only while it is counted. */
  ghost predicate Possible(trace: seq<Event>) {
    forall k | 0 <= k < |trace| && (trace[k].Finish? || trace[k].BaseWrite?) :: Active(trace[..k]) > 0
  }

  /** The counters of the bridge, with the trace they summarise. */
  class Counters {
    var turns: int
    var generation: nat
    ghost var trace: seq<Event>

    ghost predicate Valid()
      reads this
    {
      turns == Active(trace) && generation == Generation(trace) && Possible(trace)
    }

    constructor ()
      ensures Valid() && trace == []
    {
      turns, generation, trace := 0, 0, [];
    }

    method BeginTurn()
      requires Valid()
      modifies this
      ensures Valid() && trace == old(trace) + [Start]
    {
      PossiblePush(trace, Start);
      turns, generation, trace := turns + 1, generation + 1, trace + [Start];
    }

    method FinishTurn()
      requires Valid() && turns > 0
      modifies this
      ensures Valid() && trace == old(trace) + [Finish]
    {
      PossiblePush(trace, Finish);
      turns, trace := turns - 1, trace + [Finish];
    }

    /** The second read, against what the first read saw when the trace had length `from`. */
    method OverlappedSince(busy: int, generation0: nat, ghost from: nat) returns (overlapped: bool)
      requires Valid() && from <= |trace|
      requires busy == Active(trace[..from]) && generation0 == Generation(trace[..from])
      ensures overlapped <==> exists k :: from <= k <= |trace| && Active(trace[..k]) > 0
    {
      overlapped := busy > 0 || turns > 0 || generation != generation0;
      assert trace[..|trace|] == trace;
      OverlapIsExact(trace, from, |trace|);
    }
  }

  lemma PossiblePush(trace: seq<Event>, e: Event)
    requires Possible(trace) && (e.Finish? || e.BaseWrite? ==> Active(trace) > 0)
    ensures Possible(trace + [e])
    ensures Active(trace + [e]) == Active(trace) + if e.Start? then 1 else if e.Finish? then -1 else 0
    ensures Generation(trace + [e]) == Generation(trace) + if e.Start? then 1 else 0
  {
    var t := trace + [e];
    assert t[..|trace|] == trace;
    forall k | 0 <= k < |t| && (t[k].Finish? || t[k].BaseWrite?) ensures Active(t[..k]) > 0 {
      assert k < |trace| ==> t[..k] == trace[..k];
    }
  }

  lemma Unroll(trace: seq<Event>, k: nat)
    requires k < |trace|
    ensures Active(trace[..k + 1])
         == Active(trace[..k]) + if trace[k].Start? then 1 else if trace[k].Finish? then -1 else 0
    ensures Generation(trace[..k + 1]) == Generation(trace[..k]) + if trace[k].Start? then 1 else 0
  {
    assert trace[..k + 1][..k] == trace[..k];
  }

  lemma {:induction false} GenerationGrows(trace: seq<Event>, i: nat, j: nat)
    requires i <= j <= |trace|
    ensures Generation(trace[..i]) <= Generation(trace[..j])
    decreases j
  {
    if i < j {
      GenerationGrows(trace, i, j - 1);
      Unroll(trace, j - 1);
    }
  }

  /** Between two reads with equal generations the number of active turns only falls. */
  lemma {:induction false} NoStartNoRise(trace: seq<Event>, i: nat, j: nat)
    requires i <= j <= |trace| && Generation(trace[..i]) == Generation(trace[..j])
    ensures Active(trace[..j]) <= Active(trace[..i])
    decreases j
  {
    if i < j {
      Unroll(trace, j - 1);
      GenerationGrows(trace, i, j - 1);
      NoStartNoRise(trace, i, j - 1);
    }
  }

  /** A generation step means a turn became active at that moment. */
  lemma {:induction false} StartIsSeen(trace: seq<Event>, i: nat, j: nat) returns (k: nat)
    requires Possible(trace) && i <= j <= |trace| && Generation(trace[..i]) != Generation(trace[..j])
    ensures i <= k <= j && Active(trace[..k]) > 0
    decreases j
  {
    Unroll(trace, j - 1);
    if trace[j - 1].Start? {
      NeverNegative(trace, j - 1);
      k := j;
    } else {
      k := StartIsSeen(trace, i, j - 1);
    }
  }

  lemma {:induction false} NeverNegative(trace: seq<Event>, k: nat)
    requires Possible(trace) && k <= |trace|
    ensures Active(trace[..k]) >= 0
  {
    if k > 0 {
      NeverNegative(trace, k - 1);
      Unroll(trace, k - 1);
      assert trace[k - 1].Finish? ==> Active(trace[..k - 1]) > 0;
    }
  }

  /** Over every interleaving the flag is set iff some base turn was active at some moment between
      the two reads, one that both started and finished inside included. */
  lemma OverlapIsExact(trace: seq<Event>, i: nat, j: nat)
    requires Possible(trace) && i <= j <= |trace|
    ensures
      (Active(trace[..i]) > 0 || Active(trace[..j]) > 0 || Generation(trace[..j]) != Generation(trace[..i]))
      <==> exists k :: i <= k <= j && Active(trace[..k]) > 0
  {
    if Generation(trace[..i]) != Generation(trace[..j]) {
      var k := StartIsSeen(trace, i, j);
    } else {
      forall k | i <= k <= j && Active(trace[..k]) > 0 ensures Active(trace[..i]) > 0 {
        GenerationGrows(trace, i, k);
        GenerationGrows(trace, k, j);
        NoStartNoRise(trace, i, k);
      }
    }
  }

  // ---------------------------------------------------------------------------
  // The isolation verdict
  // ---------------------------------------------------------------------------

  /** How taking a snapshot went: whether git knows the directory, whether its commands worked, and whether
      the two watched files could be read, if they are there. */
  datatype Probe = Probe(isRepo: bool, gitWorks: bool, transientRead: bool, sentinelRead: bool)

  datatype Snap = Snap(fingerprint: nat, transient: Option<nat>, sentinel: Option<nat>, errors: bool)

  datatype ChangeState = BaseCheckoutChanged | NoChangesClean | FingerprintUnverifiable | NotAGitRepo

  datatype Change = Change(state: ChangeState, transientChanged: bool, sentinelChanged: bool)

  /** Why a change could not be attributed or seen. */
  datatype Doubt = SentinelChangedWithOverlap | BaseChangedWithOverlap | GitSnapshotError | BaseProbeFailed

  datatype Isolation =
    | Clear
    | Unverifiable(doubt: Doubt)
    | WorktreeEscape

  datatype TurnResult = TurnResult(ok: bool, error: string, isolation: Isolation, transientNoted: bool)

  const ESCAPE := "worktree isolation could not be proven: base checkout changed during turn"

  /** A watched file that cannot be read is taken for absent. */
  function Seen(content: Option<nat>, read: bool): Option<nat> {
    if read then content else None
  }

  function TakeSnapshot(at: Checkout, p: Probe): Option<Snap> {
    if !p.isRepo then None
    else
      Some(Snap(at.fingerprint, Seen(at.transient, p.transientRead), Seen(at.sentinel, p.sentinelRead),
                !p.gitWorks || !p.transientRead || !p.sentinelRead))
  }

  function CompareSnapshots(before: Snap, after: Option<Snap>): Change {
    if after.None? then Change(NotAGitRepo, false, false)
    else
      var transient, sentinel := before.transient != after.value.transient, before.sentinel != after.value.sentinel;
      if before.errors || after.value.errors then Change(FingerprintUnverifiable, transient, sentinel)
      else if before.fingerprint != after.value.fingerprint then Change(BaseCheckoutChanged, transient, sentinel)
      else Change(NoChangesClean, transient, sentinel)
  }

  /** Without a first snapshot nothing is verified. */
  function VerifyBaseIsolation(result: TurnResult, before: Option<Snap>, after: Option<Snap>, overlapped: bool)
    : (TurnResult, bool)
  {
    if before.None? then (result, false)
    else
      var change := CompareSnapshots(before.value, after);
      var noted := result.(transientNoted := result.transientNoted || change.transientChanged);
      var error := if result.error != "" then result.error else ESCAPE;
      var escape := noted.(ok := false, error := error, isolation := WorktreeEscape);
      if change.sentinelChanged && overlapped then
        (noted.(isolation := Unverifiable(SentinelChangedWithOverlap)), false)
      else if change.sentinelChanged then (escape, true)
      else if change.state.BaseCheckoutChanged? && overlapped then
        (noted.(isolation := Unverifiable(BaseChangedWithOverlap)), false)
      else if change.state.FingerprintUnverifiable? then (noted.(isolation := Unverifiable(GitSnapshotError)), false)
      else if change.state.NotAGitRepo? then (noted.(isolation := Unverifiable(BaseProbeFailed)), false)
      else if change.state.BaseCheckoutChanged? then (escape, true)
      else (noted, false)
  }

  /** One worktree turn as the trace has it: it reads the counters and takes a snapshot, works, takes a
      snapshot again and then reads the counters again. */
  datatype Turn = Turn(read1: nat, snap1: nat, snap2: nat, read2: nat, probe1: Probe, probe2: Probe)

  ghost predicate During(trace: seq<Event>, turn: Turn) {
    turn.read1 <= turn.snap1 <= turn.snap2 <= turn.read2 <= |trace|
  }

  /** The verdict on the turn, computed from the two reads and the two snapshots. */
  function Judge(initial: Checkout, trace: seq<Event>, turn: Turn, result: TurnResult): (TurnResult, bool)
    requires turn.read1 <= turn.snap1 <= turn.snap2 <= turn.read2 <= |trace|
  {
    var overlapped :=
      || Active(trace[..turn.read1]) > 0
      || Active(trace[..turn.read2]) > 0
      || Generation(trace[..turn.read2]) != Generation(trace[..turn.read1]);
    VerifyBaseIsolation(
      result, TakeSnapshot(Content(initial, trace[..turn.snap1]), turn.probe1),
      TakeSnapshot(Content(initial, trace[..turn.snap2]), turn.probe2), overlapped)
  }

  /** Some base turn was active at some moment between the two reads. */
  ghost predicate BaseActive(trace: seq<Event>, turn: Turn)
    requires During(trace, turn)
  {
    exists k :: turn.read1 <= k <= turn.read2 && Active(trace[..k]) > 0
  }

  ghost predicate Worked(p: Probe) {
    p.gitWorks && p.transientRead && p.sentinelRead
  }

  /** Each verdict has exactly its cause: what the checkout was at the two snapshots, how the probes went,
      and whether a base turn was active. */
  ghost predicate HasItsCause(
    c1: Checkout, c2: Checkout, p1: Probe, p2: Probe, active: bool,
    result: TurnResult, verdict: TurnResult, preserve: bool) {
    var both, whole := p1.isRepo && p2.isRepo, Worked(p1) && Worked(p2);
    // A watched file that could not be read counts as absent.
    var sentinel :=
      (if p1.sentinelRead then c1.sentinel else None) != (if p2.sentinelRead then c2.sentinel else None);
    var transient :=
      (if p1.transientRead then c1.transient else None) != (if p2.transientRead then c2.transient else None);
    var changed := c1.fingerprint != c2.fingerprint;
    && (verdict.isolation == WorktreeEscape <==> both && !active && (sentinel || (whole && changed)))
    && (verdict.isolation == Unverifiable(SentinelChangedWithOverlap) <==> both && active && sentinel)
    && (verdict.isolation == Unverifiable(BaseChangedWithOverlap) <==> both && active && !sentinel && whole && changed)
    && (verdict.isolation == Unverifiable(GitSnapshotError) <==> both && !sentinel && !whole)
    && (verdict.isolation == Unverifiable(BaseProbeFailed) <==> p1.isRepo && !p2.isRepo)
    && (verdict.isolation == Clear <==> !p1.isRepo || (both && !sentinel && whole && !changed))
    && (preserve <==> verdict.isolation == WorktreeEscape)
    && (verdict.ok <==> result.ok && !preserve)
    && verdict.error == (if preserve && result.error == "" then ESCAPE else result.error)
    && (verdict.transientNoted <==> result.transientNoted || (both && transient))
  }

  lemma SnapshotVerdict(c1: Checkout, c2: Checkout, p1: Probe, p2: Probe, active: bool, result: TurnResult)
    requires result.isolation == Clear
    ensures
      var (verdict, preserve) := VerifyBaseIsolation(result, TakeSnapshot(c1, p1), TakeSnapshot(c2, p2), active);
      HasItsCause(c1, c2, p1, p2, active, result, verdict, preserve)
  {
  }

  /**
    The verdict by its causes, for every trace, every pair of reads and every outcome of the probes. An
    escape is reported, the turn failed and its worktree kept, exactly when no base turn was active
    between the reads, both probes found the repository, and the sentinel reads differently or, both
    probes having worked, the fingerprint does. Each other verdict has exactly its cause and leaves
    the turn's own answer alone.
   */
  lemma VerdictByCause(initial: Checkout, trace: seq<Event>, turn: Turn, result: TurnResult)
    requires Possible(trace) && During(trace, turn) && result.isolation == Clear
    ensures
      var (verdict, preserve) := Judge(initial, trace, turn, result);
      HasItsCause(
        Content(initial, trace[..turn.snap1]), Content(initial, trace[..turn.snap2]), turn.probe1, turn.probe2,
        BaseActive(trace, turn), result, verdict, preserve)
  {
    OverlapIsExact(trace, turn.read1, turn.read2);
    SnapshotVerdict(
      Content(initial, trace[..turn.snap1]), Content(initial, trace[..turn.snap2]), turn.probe1, turn.probe2,
      BaseActive(trace, turn), result);
  }

  /** The last write before a moment is what the checkout holds then. */
  lemma {:induction false} LastWriteHolds(initial: Checkout, trace: seq<Event>, k: nat, j: nat)
    requires k < j <= |trace| && (trace[k].BaseWrite? || trace[k].Foreign?)
    requires forall m | k < m < j :: trace[m].Start? || trace[m].Finish?
    ensures Content(initial, trace[..j]) == trace[k].to
    decreases j
  {
    assert trace[..j][..j - 1] == trace[..j - 1];
    if k < j - 1 {
      LastWriteHolds(initial, trace, k, j - 1);
    }
  }

  /**
    A write inside the turn that is the last before the second snapshot and changes the fingerprint is
    always noticed, if both probes worked and the sentinel is as it was: without a base turn beside it
    the turn is failed as an escape, with one it is marked as not attributable.
   */
  lemma WriteIsNoticed(initial: Checkout, trace: seq<Event>, turn: Turn, result: TurnResult, k: nat)
    requires Possible(trace) && During(trace, turn) && result.isolation == Clear
    requires turn.snap1 <= k < turn.snap2 && (trace[k].BaseWrite? || trace[k].Foreign?)
    requires forall m | k < m < turn.snap2 :: trace[m].Start? || trace[m].Finish?
    requires turn.probe1.isRepo && turn.probe2.isRepo && Worked(turn.probe1) && Worked(turn.probe2)
    requires trace[k].to.fingerprint != Content(initial, trace[..turn.snap1]).fingerprint
    requires trace[k].to.sentinel == Content(initial, trace[..turn.snap1]).sentinel
    ensures
      var (verdict, preserve) := Judge(initial, trace, turn, result);
      if BaseActive(trace, turn) then verdict.isolation == Unverifiable(BaseChangedWithOverlap) && verdict.ok == result.ok
      else verdict.isolation == WorktreeEscape && preserve && !verdict.ok
    ensures trace[k].BaseWrite? ==> BaseActive(trace, turn)
  {
    LastWriteHolds(initial, trace, k, turn.snap2);
    VerdictByCause(initial, trace, turn, result);
    assert trace[k].BaseWrite? ==> turn.read1 <= k <= turn.read2 && Active(trace[..k]) > 0;
  }

  lemma {:induction false} ForeignChanged(initial: Checkout, trace: seq<Event>, i: nat, j: nat) returns (k: nat)
    requires Possible(trace) && i <= j <= |trace|
    requires Content(initial, trace[..i]) != Content(initial, trace[..j])
    requires forall m | i <= m < j :: Active(trace[..m]) == 0
    ensures i <= k < j && trace[k].Foreign?
    decreases j
  {
    assert trace[..j][..j - 1] == trace[..j - 1];
    if trace[j - 1].Foreign? {
      k := j - 1;
    } else {
      assert !trace[j - 1].BaseWrite?;
      k := ForeignChanged(initial, trace, i, j - 1);
    }
  }

  /** Some writer other than a base turn wrote between the two snapshots. */
  ghost predicate ForeignWrote(trace: seq<Event>, turn: Turn)
    requires During(trace, turn)
  {
    exists k :: turn.snap1 <= k < turn.snap2 && trace[k].Foreign?
  }

  /** If the sentinel could be read both times, or neither time, a turn reported as an escape had no base
      turn beside it and a writer other than a base turn inside it. */
  lemma EscapeIsAttributable(initial: Checkout, trace: seq<Event>, turn: Turn, result: TurnResult)
    requires Possible(trace) && During(trace, turn) && result.isolation == Clear
    requires turn.probe1.sentinelRead == turn.probe2.sentinelRead
    ensures Judge(initial, trace, turn, result).0.isolation == WorktreeEscape ==>
      !BaseActive(trace, turn) && ForeignWrote(trace, turn)
  {
    VerdictByCause(initial, trace, turn, result);
    var c1, c2 := Content(initial, trace[..turn.snap1]), Content(initial, trace[..turn.snap2]);
    if c1 != c2 && !BaseActive(trace, turn) {
      forall m | turn.snap1 <= m < turn.snap2 ensures Active(trace[..m]) == 0 {
        NeverNegative(trace, m);
        assert turn.read1 <= m <= turn.read2;
      }
      var k := ForeignChanged(initial, trace, turn.snap1, turn.snap2);
    }
  }

  /** A sentinel that was there all along and could be read one time and not the other: an escape is
      reported although nothing was written at all. */
  lemma UnreadSentinelReportsEscape(p1: Probe, p2: Probe, x: nat, result: TurnResult)
    requires p1.isRepo && p2.isRepo && p1.sentinelRead != p2.sentinelRead && result.isolation == Clear
    ensures
      var turn := Turn(0, 0, 0, 0, p1, p2);
      && Possible([]) && !ForeignWrote([], turn)
      && Judge(Checkout(0, None, Some(x)), [], turn, result).0.isolation == WorktreeEscape
  {
    VerdictByCause(Checkout(0, None, Some(x)), [], Turn(0, 0, 0, 0, p1, p2), result);
  }

  /** Every escape two probes of the repository can report has a writer to blame. */
  ghost predicate AlwaysAttributable(p1: Probe, p2: Probe) {
    forall initial, trace, turn: Turn, result: TurnResult |
      && Possible(trace) && During(trace, turn) && result.isolation == Clear
      && turn.probe1 == p1 && turn.probe2 == p2
      && Judge(initial, trace, turn, result).0.isolation == WorktreeEscape :: ForeignWrote(trace, turn)
  }

  /** That is so exactly when the sentinel could be read both times or neither time. */
  lemma AttributableIffSentinelReads(p1: Probe, p2: Probe)
    requires p1.isRepo && p2.isRepo
    ensures AlwaysAttributable(p1, p2) <==> p1.sentinelRead == p2.sentinelRead
  {
    if p1.sentinelRead == p2.sentinelRead {
      forall initial, trace, turn: Turn, result: TurnResult |
        && Possible(trace) && During(trace, turn) && result.isolation == Clear
        && turn.probe1 == p1 && turn.probe2 == p2
        && Judge(initial, trace, turn, result).0.isolation == WorktreeEscape
        ensures ForeignWrote(trace, turn)
      {
        EscapeIsAttributable(initial, trace, turn, result);
      }
    } else {
      UnreadSentinelReportsEscape(p1, p2, 0, TurnResult(true, "", Clear, false));
    }
  }
}
