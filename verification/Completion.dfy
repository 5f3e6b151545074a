/**
  The completion pipeline that runs after an engine turn: continuation loop, orchestrator commit,
  post-timeout adoption, completion gate.

  Git is a content-addressed commit store, a HEAD and a working tree. Engine turns, commit outcomes
  and the wording of refusals are parameters, so every contract holds for all of them.
 */
module Completion {
  import opened Common
  import opened Strings

  type Path = string
  type Content = string
  type CommitId = nat
  type Tree = map<Path, Content>

  datatype Commit = Commit(tree: Tree, parent: Option<CommitId>)

  /** `alive` is false once the directory has stopped being a git work tree. */
  datatype Repo = Repo(
    alive: bool, store: map<CommitId, Commit>, head: Option<CommitId>, files: Tree, ignored: set<Path>)
  {
    ghost predicate Valid() { head.Some? ==> head.value in store }

    function HeadTree(): Tree
      requires Valid()
    {
      if head.Some? then store[head.value].tree else map[]
    }

    /** `git status` reports the path: tracked and different, or untracked and not ignored. */
    predicate IsDirty(p: Path)
      requires Valid()
    {
      if p in HeadTree() then p !in files || files[p] != HeadTree()[p]
      else p in files && p !in ignored
    }

    function Dirty(): set<Path>
      requires Valid()
    {
      if alive then set p | p in HeadTree().Keys + files.Keys && IsDirty(p) else {}
    }

    /** The path exists on disk, trailing slashes aside: the root, a file, or a directory of one. */
    predicate Present(rel: Path) {
      var trimmed := TrimSlashes(rel);
      trimmed == "" || trimmed in files || exists p | p in files :: trimmed + "/" <= p
    }
  }

  datatype GateState =
    CommittedClean | NoChangesClean | DirtyUncommitted | DirtyAfterCommit | NotAGitRepo | SharedCwdUnchecked

  datatype Author = Agent | Orchestrator

  datatype Adoption =
    MissingArtifacts | DisallowedCommitted | PartialCommit | AgentCommitted | DisallowedDirty | CommitFailed | Committed

  datatype Reason = StrayCommitted | PartialCommitLeft | StrayDirty | CommitRefused | NotCleanAfter(state: GateState)

  /** `reason` is why the orchestrator commit refused, `adoption` what became of a timed-out turn. */
  datatype Verdict = Verdict(
    state: GateState, dirty: set<Path>, committedBy: Option<Author>, reason: Option<Reason>, adoption: Option<Adoption>)

  datatype TurnResult = TurnResult(
    ok: bool, error: string, stopReason: string, toolCalls: nat, text: string, completion: Option<Verdict>)

  datatype Settings = Settings(
    enforce: bool, autoCommit: bool, maxContinuations: nat, maxParallel: nat, isWorktree: bool,
    supportsContinuation: bool, askModelForMessage: bool)

  datatype Task = Task(expected: seq<Path>, allowedPrefixes: seq<string>)

  /** HEAD and the dirty paths as they were before the turn. */
  datatype Baseline = Baseline(head: Option<CommitId>, dirty: set<Path>)

  /** The world the pipeline runs in: engine turns by number, the commit-message turn, what
      `git add -A && git commit` leaves staged (None when it fails), how refusals are worded. */
  datatype World = World(
    turn: (nat, Repo) -> (Repo, TurnResult),
    cancelled: nat -> bool,
    healthy: nat -> bool,
    messageTurn: Repo -> Repo,
    staged: Repo -> Option<Tree>,
    freshId: Repo -> CommitId,
    wording: Reason -> string)

  /** Git never rewrites a stored commit. */
  ghost predicate Extends(r: Repo, r': Repo) {
    r.Valid() ==> r'.Valid() && forall id | id in r.store :: id in r'.store && r'.store[id] == r.store[id]
  }

  lemma ExtendsOn(a: Repo, b: Repo, d: Repo)
    requires Extends(a, b) && Extends(b, d)
    ensures Extends(a, d)
  {
  }

  /** A staged tree takes each path from HEAD or from the working tree, and no ignored newcomer. */
  ghost predicate StagedFrom(r: Repo, t: Tree)
    requires r.Valid()
  {
    && (forall p | p in t ::
          || (p in r.HeadTree() && t[p] == r.HeadTree()[p])
          || (p in r.files && t[p] == r.files[p] && (p in r.HeadTree() || p !in r.ignored)))
    && (forall p | p in r.HeadTree() && p !in t :: p !in r.files)
  }

  ghost predicate GitLaws(w: World) {
    && (forall k, r :: Extends(r, w.turn(k, r).0) && w.turn(k, r).1.completion == None)
    && (forall r :: Extends(r, w.messageTurn(r)))
    && (forall r: Repo | r.Valid() :: w.staged(r).Some? ==> r.alive && StagedFrom(r, w.staged(r).value))
    && (forall r :: w.freshId(r) !in r.store)
  }

  ghost predicate ReadOnlyMessage(w: World) {
    forall r :: w.messageTurn(r) == r
  }

  // ---------------------------------------------------------------------------
  // The gate's reads
  // ---------------------------------------------------------------------------

  function Evaluate(r: Repo, before: Baseline): Verdict
    requires r.Valid()
  {
    if before.head.None? || !r.alive then Verdict(NotAGitRepo, {}, None, None, None)
    else
      var dirty := r.Dirty() - before.dirty;
      var moved := r.head != before.head;
      Verdict(
        if dirty != {} then (if moved then DirtyAfterCommit else DirtyUncommitted)
        else if moved then CommittedClean else NoChangesClean,
        dirty, None, None, None)
  }

  predicate Bounces(state: GateState) {
    state.DirtyUncommitted? || state.DirtyAfterCommit?
  }

  function Missing(r: Repo, expected: seq<Path>): seq<Path> {
    if expected == [] then []
    else (if r.Present(expected[0]) then [] else [expected[0]]) + Missing(r, expected[1..])
  }

  predicate AllPresent(r: Repo, expected: seq<Path>) {
    forall rel | rel in expected :: r.Present(rel)
  }

  lemma {:induction false} MissingNone(r: Repo, expected: seq<Path>)
    ensures Missing(r, expected) == [] <==> AllPresent(r, expected)
  {
    if expected != [] {
      MissingNone(r, expected[1..]);
      assert expected == [expected[0]] + expected[1..];
    }
  }

  function TrimSlashes(p: string): string {
    if p != "" && p[|p| - 1] == '/' then TrimSlashes(p[..|p| - 1]) else p
  }

  predicate PathAllowed(task: Task, p: Path) {
    p in task.expected || exists q | q in task.allowedPrefixes :: p == q || TrimSlashes(q) + "/" <= p
  }

  /** The trailing slashes of `p`, if any, begin at position `k`. */
  predicate SlashesFrom(p: string, k: nat) {
    k <= |p| && (k > 0 ==> p[k - 1] != '/') && forall i | k <= i < |p| :: p[i] == '/'
  }

  lemma {:induction false} TrimmedAt(p: string) returns (k: nat)
    ensures SlashesFrom(p, k) && TrimSlashes(p) == p[..k] && forall m: nat | SlashesFrom(p, m) :: m == k
  {
    if p != "" && p[|p| - 1] == '/' {
      k := TrimmedAt(p[..|p| - 1]);
      assert p[..|p| - 1][..k] == p[..k];
      forall m: nat | SlashesFrom(p, m) ensures m == k {
        assert m < |p|;
        assert SlashesFrom(p[..|p| - 1], m);
      }
    } else {
      k := |p|;
    }
  }

  /** The task names the path, or names it or a directory above it as allowed, trailing slashes aside. */
  ghost predicate Named(task: Task, p: Path) {
    || p in task.expected
    || p in task.allowedPrefixes
    || exists q, k | q in task.allowedPrefixes && SlashesFrom(q, k) :: q[..k] + "/" <= p
  }

  lemma AllowedIffNamed(task: Task, p: Path)
    ensures PathAllowed(task, p) <==> Named(task, p)
  {
    forall q | q in task.allowedPrefixes
      ensures TrimSlashes(q) + "/" <= p <==> exists k | SlashesFrom(q, k) :: q[..k] + "/" <= p
    {
      var k := TrimmedAt(q);
    }
  }

  /** What is there: the root, a file, or a directory above a file. */
  lemma PresentMeans(r: Repo, rel: Path, k: nat)
    requires SlashesFrom(rel, k)
    ensures r.Present(rel) <==> k == 0 || exists p | p in r.files :: p == rel[..k] || rel[..k] + "/" <= p
  {
    var at := TrimmedAt(rel);
  }

  function At(t: Tree, p: Path): Option<Content> {
    if p in t then Some(t[p]) else None
  }

  /** `git diff --name-only a..b`, renames off. */
  function DiffPaths(a: Tree, b: Tree): set<Path> {
    set p | p in a.Keys + b.Keys && At(a, p) != At(b, p)
  }

  /** Paths changed by commits since the baseline; empty when git cannot answer, as with an unborn HEAD. */
  function CommittedPaths(r: Repo, before: Baseline): set<Path>
    requires r.Valid()
  {
    if before.head.None? || !r.alive || r.head.None? || before.head.value !in r.store then {}
    else DiffPaths(r.store[before.head.value].tree, r.HeadTree())
  }

  predicate Contains(s: string, sub: string) {
    exists i | 0 <= i <= |s| - |sub| :: s[i..][..|sub|] == sub
  }

  lemma ContainsMeans(s: string, sub: string)
    ensures Contains(s, sub) <==> exists a, b :: s == a + sub + b
  {
    if i :| 0 <= i <= |s| - |sub| && s[i..][..|sub|] == sub {
      assert s == s[..i] + sub + s[i..][|sub|..];
    }
    if a, b :| s == a + sub + b {
      assert s[|a|..][..|sub|] == sub;
    }
  }

  predicate IsEngineTimeout(result: TurnResult) {
    !result.ok && Contains(result.error, "turn timed out after")
  }

  predicate Continuable(result: TurnResult) {
    && result.stopReason !in ["refusal", "cancelled", "failed", "error"]
    && !(result.stopReason == "end_turn" && result.toolCalls == 0 && IsBlank(result.text))
  }

  predicate TaskIncomplete(r: Repo, before: Baseline, expected: seq<Path>)
    requires r.Valid()
  {
    if expected != [] then Missing(r, expected) != [] else Bounces(Evaluate(r, before).state)
  }

  // ---------------------------------------------------------------------------
  // What the reads mean
  // ---------------------------------------------------------------------------

  /** Nothing became dirty during the turn, as git reports it now. */
  ghost predicate NoNewDirt(r: Repo, before: Baseline)
    requires r.Valid()
  {
    r.Dirty() <= before.dirty
  }

  /** Git can compare the tree with the baseline. */
  ghost predicate Known(r: Repo, before: Baseline) {
    before.head.Some? && r.alive
  }

  ghost predicate Strays(task: Task, paths: set<Path>) {
    exists p | p in paths :: !Named(task, p)
  }

  /** A path counts as committed when git can compare the start with a HEAD and it is in one and not in the
      other, or differs. */
  lemma CommittedMeans(r: Repo, before: Baseline, p: Path)
    requires r.Valid()
    ensures p in CommittedPaths(r, before) <==>
      && Known(r, before) && before.head.value in r.store && r.head.Some?
      && var was, now := r.store[before.head.value].tree, r.store[r.head.value].tree;
         ((p in was) != (p in now)) || (p in was && p in now && was[p] != now[p])
  {
  }

  ghost predicate OnlyAllowedCommitted(r: Repo, task: Task, before: Baseline)
    requires r.Valid()
  {
    !Strays(task, CommittedPaths(r, before))
  }

  /** The gate's five states, by HEAD and by what became dirty. */
  lemma VerdictMeans(r: Repo, before: Baseline)
    requires r.Valid()
    ensures
      var v, moved, clean := Evaluate(r, before), r.head != before.head, NoNewDirt(r, before);
      && (v.state.NotAGitRepo? <==> !Known(r, before))
      && (v.state.CommittedClean? <==> Known(r, before) && moved && clean)
      && (v.state.NoChangesClean? <==> Known(r, before) && !moved && clean)
      && (v.state.DirtyAfterCommit? <==> Known(r, before) && moved && !clean)
      && (v.state.DirtyUncommitted? <==> Known(r, before) && !moved && !clean)
      && (Known(r, before) ==> forall p :: p in v.dirty <==> p in r.Dirty() && p !in before.dirty)
      && v.committedBy == None && v.reason == None && v.adoption == None
  {
    var dirty := r.Dirty();
    assert forall p | p in dirty :: p in before.dirty || p in dirty - before.dirty;
  }

  lemma CleanVerdict(r: Repo, before: Baseline)
    requires r.Valid()
    ensures before.head.Some? && !Bounces(Evaluate(r, before).state) ==> NoNewDirt(r, before)
    ensures Evaluate(r, before).state.CommittedClean? || Evaluate(r, before).state.NoChangesClean? ==>
      r.alive && before.head.Some? && NoNewDirt(r, before)
  {
    VerdictMeans(r, before);
  }

  /** The stray checks find exactly the paths the task does not name. */
  lemma StraysFound(task: Task, paths: set<Path>)
    ensures (exists p | p in paths :: !PathAllowed(task, p)) <==> Strays(task, paths)
  {
    forall p | p in paths ensures PathAllowed(task, p) <==> Named(task, p) {
      AllowedIffNamed(task, p);
    }
  }

  /** The turn was stopped, or ended without a tool call and without a word. */
  ghost predicate Stopped(result: TurnResult) {
    || result.stopReason == "refusal" || result.stopReason == "cancelled"
    || result.stopReason == "failed" || result.stopReason == "error"
    || (result.stopReason == "end_turn" && result.toolCalls == 0 && forall ch | ch in result.text :: IsSpace(ch))
  }

  lemma ContinuableIffNotStopped(result: TurnResult)
    ensures Continuable(result) <==> !Stopped(result)
  {
  }

  /** Contracted artifacts are missing or, without a contract, something became dirty. */
  ghost predicate Unfinished(r: Repo, task: Task, before: Baseline)
    requires r.Valid()
  {
    if task.expected != [] then !AllPresent(r, task.expected) else Known(r, before) && !NoNewDirt(r, before)
  }

  lemma IncompleteIffUnfinished(r: Repo, task: Task, before: Baseline)
    requires r.Valid()
    ensures TaskIncomplete(r, before, task.expected) <==> Unfinished(r, task, before)
  {
    MissingNone(r, task.expected);
    VerdictMeans(r, before);
  }

  /** What the commit makes of the repository. */
  function AfterCommit(w: World, r: Repo): Repo
    requires w.staged(r).Some?
  {
    var id := w.freshId(r);
    r.(store := r.store[id := Commit(w.staged(r).value, r.head)], head := Some(id))
  }

  /** Everything git would take: all files but the untracked ignored ones. */
  function FullTree(r: Repo): Tree
    requires r.Valid()
  {
    map p | p in r.files && (p in r.HeadTree() || p !in r.ignored) :: r.files[p]
  }

  /** A commit of everything leaves nothing dirty. */
  lemma FullStageIsClean(w: World, r: Repo)
    requires r.Valid() && w.staged(r) == Some(FullTree(r))
    ensures AfterCommit(w, r).Valid() && AfterCommit(w, r).Dirty() == {}
  {
    var r' := AfterCommit(w, r);
    assert r'.HeadTree() == FullTree(r);
    assert forall p :: !r'.IsDirty(p);
  }

  /** No commit of the agent needs refusing, and what it left uncommitted, if git can tell, is all named. */
  ghost predicate LeftToCommit(r: Repo, task: Task, before: Baseline)
    requires r.Valid()
  {
    && !Strays(task, CommittedPaths(r, before))
    && (Known(r, before) ==>
          r.head == before.head && !NoNewDirt(r, before) && !Strays(task, r.Dirty() - before.dirty))
  }

  /** Committing succeeds, moves HEAD and leaves no new dirt. */
  ghost predicate CommitsClean(w: World, r: Repo, before: Baseline)
    requires r.Valid()
  {
    && w.staged(r).Some?
    && var r' := AfterCommit(w, r);
       Known(r', before) && r'.head != before.head && r'.Dirty() <= before.dirty
  }

  /** The repository the bridge commits: after the commit-message turn, if one is asked for. */
  function Ready(c: Settings, w: World, r: Repo): Repo {
    if c.askModelForMessage && c.supportsContinuation then w.messageTurn(r) else r
  }

  /** A child of the baseline whose changes were all dirty, allowed paths changes only allowed ones. */
  lemma ChildIsAllowed(r: Repo, r': Repo, task: Task, before: Baseline)
    requires r.Valid() && r'.Valid() && Extends(r, r') && r.alive && before.dirty == {}
    requires before.head.Some? && r.head == before.head
    requires DiffPaths(r.HeadTree(), r'.HeadTree()) <= r.Dirty()
    requires !Strays(task, r.Dirty() - before.dirty)
    ensures OnlyAllowedCommitted(r', task, before)
  {
  }

  // ---------------------------------------------------------------------------
  // The four stages
  // ---------------------------------------------------------------------------

  predicate Drivable(c: Settings) {
    c.enforce && c.supportsContinuation && (c.isWorktree || c.maxParallel <= 1)
  }

  function Progress(r: Repo): (Option<CommitId>, set<Path>)
    requires r.Valid()
  {
    (if r.alive then r.head else None, r.Dirty())
  }

  /** The same paths are dirty, and HEAD as git reports it, nothing outside a git tree, is the same. */
  ghost predicate Still(r: Repo, r': Repo)
    requires r.Valid() && r'.Valid()
  {
    && r.Dirty() == r'.Dirty()
    && (r.alive && r'.alive ==> r.head == r'.head)
    && (r.alive && !r'.alive ==> r.head == None) && (r'.alive && !r.alive ==> r'.head == None)
  }

  lemma ProgressMeans(r: Repo, r': Repo)
    requires r.Valid() && r'.Valid()
    ensures Progress(r) == Progress(r') <==> Still(r, r')
  {
  }

  /** What a turn left behind, and what it answered. */
  type Turns = seq<(Repo, TurnResult)>

  ghost predicate AllValid(trace: Turns) {
    forall k | 0 <= k < |trace| :: trace[k].0.Valid()
  }

  /** Continuation `k` is called for: the turn before it ended well and was not stopped or cancelled, the
      session is sound, the work is unfinished, and the last continuation moved HEAD or the dirty set. */
  ghost predicate CalledFor(w: World, task: Task, before: Baseline, trace: Turns, k: nat)
    requires k < |trace| && AllValid(trace)
  {
    var (r, result) := trace[k];
    && result.ok && !Stopped(result) && w.healthy(k) && !w.cancelled(k) && Unfinished(r, task, before)
    && (k > 0 ==> !Still(trace[k - 1].0, r))
  }

  /** The loop's own tests, with the progress it remembers. */
  lemma CalledForIffTestsPass(
    w: World, task: Task, before: Baseline, trace: Turns, previous: Option<(Option<CommitId>, set<Path>)>)
    requires trace != [] && AllValid(trace)
    requires previous == if |trace| == 1 then None else Some(Progress(trace[|trace| - 2].0))
    ensures
      var k := |trace| - 1;
      var (r, result) := trace[k];
      CalledFor(w, task, before, trace, k) <==>
        && result.ok && !w.cancelled(k) && Continuable(result) && w.healthy(k)
        && TaskIncomplete(r, before, task.expected) && previous != Some(Progress(r))
  {
    ContinuableIffNotStopped(trace[|trace| - 1].1);
    IncompleteIffUnfinished(trace[|trace| - 1].0, task, before);
    if |trace| > 1 {
      ProgressMeans(trace[|trace| - 2].0, trace[|trace| - 1].0);
    }
  }

  /** The turns of a trace follow one another, each continuation called for. */
  ghost predicate Driven(w: World, task: Task, before: Baseline, trace: Turns)
    requires AllValid(trace)
  {
    forall k: nat | k < |trace| - 1 :: trace[k + 1] == w.turn(k, trace[k].0) && CalledFor(w, task, before, trace, k)
  }

  lemma DrivenOn(w: World, task: Task, before: Baseline, trace: Turns)
    requires trace != [] && AllValid(trace) && Driven(w, task, before, trace) && GitLaws(w)
    requires CalledFor(w, task, before, trace, |trace| - 1)
    ensures
      var longer := trace + [w.turn(|trace| - 1, trace[|trace| - 1].0)];
      AllValid(longer) && Driven(w, task, before, longer)
  {
    var n := |trace| - 1;
    var longer := trace + [w.turn(n, trace[n].0)];
    assert Extends(trace[n].0, longer[n + 1].0);
    assert AllValid(longer);
    forall k: nat | k < |longer| - 1
      ensures longer[k + 1] == w.turn(k, longer[k].0) && CalledFor(w, task, before, longer, k)
    {
      assert longer[k] == trace[k];
      assert CalledFor(w, task, before, trace, k);
    }
  }

  /** Re-prompts exactly as long as a continuation is called for and there is budget. */
  method DriveToCompletion(c: Settings, w: World, task: Task, before: Baseline, repo0: Repo, result0: TurnResult)
    returns (repo: Repo, result: TurnResult, turns: nat, ghost trace: Turns)
    requires repo0.Valid() && GitLaws(w) && result0.completion == None
    ensures Extends(repo0, repo) && repo.Valid() && result.completion == None
    ensures |trace| == turns + 1 && trace[0] == (repo0, result0) && trace[turns] == (repo, result) && AllValid(trace)
    ensures Driven(w, task, before, trace)
    ensures turns <= c.maxContinuations && (turns > 0 ==> Drivable(c))
    ensures Drivable(c) && turns < c.maxContinuations ==> !CalledFor(w, task, before, trace, turns)
  {
    repo, result, turns, trace := repo0, result0, 0, [(repo0, result0)];
    if !c.enforce || c.maxContinuations <= 0 || !c.supportsContinuation || (!c.isWorktree && c.maxParallel > 1) {
      return;
    }
    var previous: Option<(Option<CommitId>, set<Path>)> := None;
    while turns < c.maxContinuations
      invariant turns <= c.maxContinuations
      invariant Extends(repo0, repo) && repo.Valid() && result.completion == None
      invariant |trace| == turns + 1 && trace[0] == (repo0, result0) && trace[turns] == (repo, result) && AllValid(trace)
      invariant Driven(w, task, before, trace)
      invariant previous == if turns == 0 then None else Some(Progress(trace[turns - 1].0))
    {
      CalledForIffTestsPass(w, task, before, trace, previous);
      if !result.ok || w.cancelled(turns) || !Continuable(result) || !w.healthy(turns) { return; }
      if !TaskIncomplete(repo, before, task.expected) { return; }
      if previous == Some(Progress(repo)) { return; }
      previous := Some(Progress(repo));
      DrivenOn(w, task, before, trace);
      var (next, reply) := w.turn(turns, repo);
      ExtendsOn(repo0, repo, next);
      repo, result, turns := next, reply, turns + 1;
      trace := trace + [(repo, result)];
    }
  }

  /** A bridge commit on a live tree: HEAD moves to a fresh child of the old HEAD, files untouched. */
  method CommitAll(w: World, repo0: Repo) returns (repo: Repo, made: bool)
    requires repo0.Valid() && GitLaws(w)
    ensures Extends(repo0, repo) && repo.Valid() && repo.files == repo0.files && repo.alive == repo0.alive
    ensures !made ==> repo == repo0
    ensures made ==> repo0.alive && repo.head.Some? && repo.head.value !in repo0.store
    ensures made ==> repo.store[repo.head.value].parent == repo0.head
    ensures made ==> DiffPaths(repo0.HeadTree(), repo.HeadTree()) <= repo0.Dirty()
    ensures made <==> w.staged(repo0).Some?
    ensures made ==> repo == AfterCommit(w, repo0)
  {
    repo, made := repo0, false;
    var staged := w.staged(repo0);
    if staged.Some? {
      var id := w.freshId(repo0);
      repo := repo0.(store := repo0.store[id := Commit(staged.value, repo0.head)], head := Some(id));
      made := true;
    }
  }

  /** The orchestrator commit decides a turn exactly when it is an ok worktree turn whose contracted
      artifacts are all there. */
  ghost predicate Decides(c: Settings, task: Task, r: Repo, result: TurnResult) {
    && c.autoCommit && c.enforce && c.isWorktree && result.ok
    && task.expected != [] && AllPresent(r, task.expected)
  }

  /** Adopts the agent's commit, makes the missing one, or fails the turn, each exactly in its case. */
  method OrchestratorCommit(c: Settings, w: World, task: Task, before: Baseline, repo0: Repo, result0: TurnResult)
    returns (repo: Repo, result: TurnResult, made: bool)
    requires repo0.Valid() && GitLaws(w) && result0.completion == None
    ensures Extends(repo0, repo) && repo.Valid()
    ensures result.completion == None ==> repo == repo0 && result == result0
    ensures result.completion.Some? <==> Decides(c, task, repo0, result0)
    // Which case it is.
    ensures Decides(c, task, repo0, result0) ==>
      var v, clean := result.completion.value, NoNewDirt(repo0, before);
      var stray := Strays(task, CommittedPaths(repo0, before));
      && (v.reason == Some(StrayCommitted) <==> stray)
      && (v.reason == Some(PartialCommitLeft) <==> !stray && Known(repo0, before) && repo0.head != before.head && !clean)
      && (v.committedBy == Some(Agent) <==> !stray && Known(repo0, before) && clean)
      && (v.reason == Some(StrayDirty) <==>
            && !stray && Known(repo0, before) && repo0.head == before.head
            && Strays(task, repo0.Dirty() - before.dirty))
    // The bridge's own commit.
    ensures Decides(c, task, repo0, result0) ==>
      var v, ready := result.completion.value, Ready(c, w, repo0);
      && (made <==> LeftToCommit(repo0, task, before) && w.staged(ready).Some?)
      && (made ==> repo == AfterCommit(w, ready))
      && (v.reason == Some(CommitRefused) <==> LeftToCommit(repo0, task, before) && w.staged(ready).None?)
      && (v.reason.Some? && v.reason.value.NotCleanAfter? <==> made && !CommitsClean(w, ready, before))
      && (v.committedBy == Some(Orchestrator) <==> LeftToCommit(repo0, task, before) && CommitsClean(w, ready, before))
      && (result.ok <==> v.committedBy.Some?) && (result.ok <==> v.reason == None) && v.adoption == None
      && v.(committedBy := None, reason := None)
           == Evaluate(if v.committedBy == Some(Orchestrator) then repo else repo0, before)
      && (result.ok ==> result == result0.(completion := result.completion))
      && (!result.ok ==> result.error == w.wording(v.reason.value))
    ensures !made ==>
      repo == if LeftToCommit(repo0, task, before) && Decides(c, task, repo0, result0) then Ready(c, w, repo0) else repo0
    ensures made ==> Decides(c, task, repo0, result0)
    // What an accepted turn can rely on.
    ensures made ==> repo.head.Some? && repo.head.value !in repo0.store
    ensures made && before.head.Some? && ReadOnlyMessage(w) ==>
      repo0.head == before.head && repo.store[repo.head.value].parent == before.head
    ensures result.ok && result.completion.Some? ==>
      result.completion.value.committedBy.Some? && before.head.Some? && NoNewDirt(repo, before)
    ensures result.ok && result.completion.Some? && ReadOnlyMessage(w) ==> AllPresent(repo, task.expected)
    ensures result.ok && result.completion.Some? ==> repo.alive
    ensures result.ok && result.completion.Some? && ReadOnlyMessage(w) && before.dirty == {} ==>
      OnlyAllowedCommitted(repo, task, before)
  {
    repo, result, made := repo0, result0, false;
    MissingNone(repo0, task.expected);
    VerdictMeans(repo0, before);
    if !c.autoCommit || !c.enforce || !result.ok || !c.isWorktree { return; }
    if task.expected == [] || Missing(repo, task.expected) != [] { return; }
    var verdict := Evaluate(repo, before);
    StraysFound(task, CommittedPaths(repo, before));
    if exists p | p in CommittedPaths(repo, before) :: !PathAllowed(task, p) {
      result := Refused(w, result, verdict, StrayCommitted);
      return;
    }
    if verdict.state.DirtyAfterCommit? {
      result := Refused(w, result, verdict, PartialCommitLeft);
      return;
    }
    if verdict.state.CommittedClean? || verdict.state.NoChangesClean? {
      result := result.(completion := Some(verdict.(committedBy := Some(Agent))));
      return;
    }
    StraysFound(task, verdict.dirty);
    assert Known(repo, before) ==> verdict.dirty == repo.Dirty() - before.dirty;
    if exists p | p in verdict.dirty :: !PathAllowed(task, p) {
      result := Refused(w, result, verdict, StrayDirty);
      return;
    }
    assert LeftToCommit(repo0, task, before);
    if c.askModelForMessage && c.supportsContinuation { repo := w.messageTurn(repo); }
    ghost var ready := repo;
    repo, made := CommitAll(w, repo);
    if !made {
      result := Refused(w, result, verdict, CommitRefused);
      return;
    }
    var after := Evaluate(repo, before);
    VerdictMeans(repo, before);
    if !after.state.CommittedClean? {
      result := Refused(w, result, verdict, NotCleanAfter(after.state));
      return;
    }
    if ReadOnlyMessage(w) && before.dirty == {} { ChildIsAllowed(ready, repo, task, before); }
    result := result.(completion := Some(after.(committedBy := Some(Orchestrator))));
  }

  function Refused(w: World, result: TurnResult, verdict: Verdict, reason: Reason): TurnResult {
    result.(ok := false, error := w.wording(reason), completion := Some(verdict.(reason := Some(reason))))
  }

  /** Salvage looks at a turn exactly when it is a timed-out worktree turn with contracted artifacts. */
  ghost predicate Salvages(c: Settings, task: Task, result: TurnResult) {
    && c.autoCommit && c.enforce && c.isWorktree && !result.ok && Contains(result.error, "turn timed out after")
    && task.expected != []
  }

  /** Tags a timed-out turn, each tag exactly in its case, and commits for it when that leaves a clean tree. */
  method PostTimeoutAdopt(c: Settings, w: World, task: Task, before: Baseline, repo0: Repo, result0: TurnResult)
    returns (repo: Repo, result: TurnResult, preserve: bool, made: bool)
    requires repo0.Valid() && GitLaws(w)
    ensures Extends(repo0, repo) && repo.Valid()
    ensures !Salvages(c, task, result0) ==> repo == repo0 && result == result0 && !made && !preserve
    // Which case it is.
    ensures Salvages(c, task, result0) ==> result.completion.Some? && result.completion.value.adoption.Some?
    ensures Salvages(c, task, result0) ==>
      var v, clean := result.completion.value, NoNewDirt(repo0, before);
      var stray := Strays(task, CommittedPaths(repo0, before));
      var tag, present := v.adoption.value, AllPresent(repo0, task.expected);
      && (tag.MissingArtifacts? <==> !present)
      && (tag.DisallowedCommitted? <==> present && stray)
      && (tag.PartialCommit? <==> present && !stray && Known(repo0, before) && repo0.head != before.head && !clean)
      && (tag.AgentCommitted? <==> present && !stray && Known(repo0, before) && clean)
      && (tag.DisallowedDirty? <==>
            && present && !stray && Known(repo0, before) && repo0.head == before.head
            && Strays(task, repo0.Dirty() - before.dirty))
      && (tag.Committed? <==> present && LeftToCommit(repo0, task, before) && CommitsClean(w, repo0, before))
      && (v.committedBy == Some(Agent) <==> tag.AgentCommitted?)
      && (v.committedBy == Some(Orchestrator) <==> tag.Committed?)
      && (result.ok <==> tag.Committed?) && (!result.ok ==> result.error == result0.error)
      && (made <==> present && LeftToCommit(repo0, task, before) && w.staged(repo0).Some?)
      // The worktree is kept unless it holds a clean commit or nothing at all.
      && (preserve <==>
            if tag.MissingArtifacts? then
              !(Known(repo0, before) && repo0.head == before.head && clean) || CommittedPaths(repo0, before) != {}
            else !tag.AgentCommitted? && !tag.Committed?)
    ensures !made ==> repo == repo0
    ensures made ==> repo == AfterCommit(w, repo0)
    // What an adopted turn can rely on.
    ensures made ==> repo.head.Some? && repo.head.value !in repo0.store
    ensures made && before.head.Some? ==>
      repo0.head == before.head && repo.store[repo.head.value].parent == before.head
    ensures !result0.ok && result.ok ==>
      && IsEngineTimeout(result0) && made && c.autoCommit && c.enforce && c.isWorktree && before.head.Some?
      && result.completion.Some? && result.completion.value.committedBy == Some(Orchestrator)
      && result.completion.value.adoption == Some(Committed)
      && repo.alive && NoNewDirt(repo, before) && AllPresent(repo, task.expected)
      && (before.dirty == {} ==> OnlyAllowedCommitted(repo, task, before))
  {
    repo, result, preserve, made := repo0, result0, false, false;
    if !c.autoCommit || !c.enforce || result.ok || !c.isWorktree || !IsEngineTimeout(result) { return; }
    if task.expected == [] { return; }
    MissingNone(repo0, task.expected);
    VerdictMeans(repo0, before);
    var verdict := Evaluate(repo, before);
    var committed := CommittedPaths(repo, before);
    if Missing(repo, task.expected) != [] {
      result := result.(completion := Some(verdict.(adoption := Some(MissingArtifacts))));
      preserve := !verdict.state.NoChangesClean? || committed != {};
      return;
    }
    preserve := true;
    StraysFound(task, committed);
    if exists p | p in committed :: !PathAllowed(task, p) {
      result := result.(completion := Some(verdict.(adoption := Some(DisallowedCommitted))));
      return;
    }
    if verdict.state.DirtyAfterCommit? {
      result := result.(completion := Some(verdict.(adoption := Some(PartialCommit))));
      return;
    }
    if verdict.state.CommittedClean? || verdict.state.NoChangesClean? {
      result := result.(completion := Some(verdict.(committedBy := Some(Agent), adoption := Some(AgentCommitted))));
      preserve := false;
      return;
    }
    StraysFound(task, verdict.dirty);
    assert Known(repo, before) ==> verdict.dirty == repo.Dirty() - before.dirty;
    if exists p | p in verdict.dirty :: !PathAllowed(task, p) {
      result := result.(completion := Some(verdict.(adoption := Some(DisallowedDirty))));
      return;
    }
    assert LeftToCommit(repo0, task, before);
    repo, made := CommitAll(w, repo);
    var after := Evaluate(repo, before);
    VerdictMeans(repo, before);
    if !made || !after.state.CommittedClean? {
      result := result.(completion := Some(verdict.(adoption := Some(CommitFailed))));
      return;
    }
    if before.dirty == {} { ChildIsAllowed(repo0, repo, task, before); }
    preserve := false;
    result := result.(
      ok := true, error := "",
      completion := Some(after.(committedBy := Some(Orchestrator), adoption := Some(Committed))));
  }

  /** The gate looks at an ok turn nobody has decided yet; a shared directory it only marks as unchecked. */
  ghost predicate Gates(c: Settings, result: TurnResult) {
    c.enforce && result.ok && !(result.completion.Some? && result.completion.value.committedBy.Some?)
  }

  method ApplyCompletionGate(c: Settings, task: Task, before: Baseline, repo: Repo, result0: TurnResult)
    returns (result: TurnResult, preserve: bool)
    requires repo.Valid()
    ensures !Gates(c, result0) ==> result == result0 && !preserve
    ensures Gates(c, result0) && !c.isWorktree && c.maxParallel > 1 ==>
      result == result0.(completion := Some(Verdict(SharedCwdUnchecked, {}, None, None, None))) && !preserve
    ensures Gates(c, result0) && (c.isWorktree || c.maxParallel <= 1) ==>
      && (result.ok <==> (Known(repo, before) ==> NoNewDirt(repo, before)) && AllPresent(repo, task.expected))
      && result.completion == Some(Evaluate(repo, before)) && (result.ok ==> result.error == result0.error)
      && (preserve <==> !result.ok && c.isWorktree)
  {
    result, preserve := result0, false;
    if !c.enforce || !result.ok { return; }
    if result.completion.Some? && result.completion.value.committedBy.Some? { return; }
    if !c.isWorktree && c.maxParallel > 1 {
      result := result.(completion := Some(Verdict(SharedCwdUnchecked, {}, None, None, None)));
      return;
    }
    var verdict := Evaluate(repo, before);
    VerdictMeans(repo, before);
    if Bounces(verdict.state) {
      result := result.(
        ok := false, error := "incomplete: uncommitted changes, no commit", completion := Some(verdict));
      preserve := c.isWorktree;
      return;
    }
    MissingNone(repo, task.expected);
    if task.expected != [] && Missing(repo, task.expected) != [] {
      result := result.(ok := false, error := "incomplete: expected artifacts missing", completion := Some(verdict));
      preserve := c.isWorktree;
      return;
    }
    result := result.(completion := Some(verdict));
  }

  /** Whether a turn that ended with `driven` on the tree `r` is accepted: an ok turn with all contracted
      artifacts, where auto-commit applies, if the agent's work is committed or the bridge can commit it,
      all of it named; otherwise an ok turn with its artifacts and no new dirt; and a timed-out turn if
      the bridge can commit it. */
  ghost predicate Accepts(c: Settings, w: World, task: Task, before: Baseline, r: Repo, driven: TurnResult)
    requires r.Valid() && Ready(c, w, r).Valid()
  {
    if Decides(c, task, r, driven) then
      || (!Strays(task, CommittedPaths(r, before)) && Known(r, before) && NoNewDirt(r, before))
      || (LeftToCommit(r, task, before) && CommitsClean(w, Ready(c, w, r), before))
    else if driven.ok then
      (Known(r, before) ==> NoNewDirt(r, before)) && AllPresent(r, task.expected)
    else
      && Salvages(c, task, driven) && AllPresent(r, task.expected)
      && LeftToCommit(r, task, before) && CommitsClean(w, r, before)
  }

  /** Whether the worktree is kept for salvage: of the turns orchestrator commit decides, none; of other ok
      turns, the bounced ones; of timed-out ones, those left with work that is not cleanly committed. */
  ghost predicate Keeps(c: Settings, task: Task, before: Baseline, r: Repo, driven: TurnResult, ok: bool)
    requires r.Valid()
  {
    if Decides(c, task, r, driven) then false
    else if driven.ok then !ok
    else
      && Salvages(c, task, driven) && !ok
      && if AllPresent(r, task.expected) then
           Strays(task, CommittedPaths(r, before)) || !(Known(r, before) && NoNewDirt(r, before))
         else
           !(Known(r, before) && r.head == before.head && NoNewDirt(r, before)) || CommittedPaths(r, before) != {}
  }

  /** What the stages after the last engine turn, which left `mid` and answered `driven`, make of it. */
  ghost predicate Settled(
    c: Settings, w: World, task: Task, before: Baseline, mid: Repo, driven: TurnResult,
    repo: Repo, result: TurnResult, preserve: bool, commits: nat)
    requires mid.Valid() && repo.Valid() && Ready(c, w, mid).Valid()
  {
    // The answer is ok exactly when the outcome of the turns is accepted, even if the wording of a refused
    // commit reads like an engine timeout.
    && (result.ok <==> Accepts(c, w, task, before, mid, driven))
    // Whichever branch said ok: nothing became dirty and every expected artifact exists.
    && (result.ok ==> NoNewDirt(repo, before))
    && (result.ok && ReadOnlyMessage(w) ==> AllPresent(repo, task.expected))
    // At most one bridge commit, and only on top of the starting HEAD.
    && commits <= 1
    && (commits == 1 && ReadOnlyMessage(w) ==>
          repo.head.Some? && repo.head != before.head && repo.store[repo.head.value].parent == before.head)
    // With auto-commit, a clean start and a contract, only allowed paths were committed.
    && (result.ok && ReadOnlyMessage(w) && c.autoCommit && before.dirty == {} && task.expected != [] ==>
          repo.alive && OnlyAllowedCommitted(repo, task, before))
    // A failed turn becomes ok only through timeout adoption.
    && (result.ok && !driven.ok ==>
          && IsEngineTimeout(driven) && commits == 1
          && result.completion.Some? && result.completion.value.adoption == Some(Committed))
    // Where the tree has stopped being a git tree, git reports nothing dirty: ok then means exactly that the
    // turn was ok, its artifacts exist, and no commit was asked for.
    && (!repo.alive ==>
          (result.ok <==> driven.ok && AllPresent(repo, task.expected) && (!c.autoCommit || task.expected == [])))
    // A bounced worktree turn is kept for salvage; one that orchestrator commit refused is not, unless the
    // wording of the refusal reads like an engine timeout.
    && (driven.ok && !c.autoCommit && !result.ok ==> preserve)
    && ((forall why :: !Contains(w.wording(why), "turn timed out after")) ==>
          (preserve <==> Keeps(c, task, before, mid, driven, result.ok)))
  }

  /** The three stages after the last engine turn. */
  method SettleTurn(c: Settings, w: World, task: Task, before: Baseline, mid: Repo, driven: TurnResult)
    returns (repo: Repo, result: TurnResult, preserve: bool, commits: nat)
    requires mid.Valid() && GitLaws(w) && driven.completion == None
    requires c.enforce && c.isWorktree && before.head.Some? && before.head.value in mid.store
    ensures Extends(mid, repo) && repo.Valid() && Ready(c, w, mid).Valid()
    ensures Settled(c, w, task, before, mid, driven, repo, result, preserve, commits)
  {
    var first, second, adopted;
    repo, result, first := OrchestratorCommit(c, w, task, before, mid, driven);
    repo, result, adopted, second := PostTimeoutAdopt(c, w, task, before, repo, result);
    result, preserve := ApplyCompletionGate(c, task, before, repo, result);
    CleanVerdict(repo, before);
    assert !repo.alive ==> Evaluate(repo, before).state.NotAGitRepo?;
    preserve := preserve || adopted;
    commits := (if first then 1 else 0) + (if second then 1 else 0);
  }

  /** The whole pipeline on one worktree turn with a known starting HEAD, for every engine, every commit
      outcome and every wording of refusals: the turns, `trace`, end with `driven` on the tree `mid`. */
  method CompleteTurn(c: Settings, w: World, task: Task, before: Baseline, repo0: Repo, engineResult: TurnResult)
    returns (repo: Repo, result: TurnResult, preserve: bool, driven: TurnResult, commits: nat, mid: Repo,
             ghost trace: Turns)
    requires repo0.Valid() && GitLaws(w) && engineResult.completion == None
    requires c.enforce && c.isWorktree && before.head.Some? && before.head.value in repo0.store
    ensures trace != [] && trace[0] == (repo0, engineResult) && trace[|trace| - 1] == (mid, driven)
    ensures AllValid(trace) && Driven(w, task, before, trace)
    ensures Extends(repo0, mid) && Extends(mid, repo) && mid.Valid() && repo.Valid() && Ready(c, w, mid).Valid()
    ensures Settled(c, w, task, before, mid, driven, repo, result, preserve, commits)
  {
    var turns;
    mid, driven, turns, trace := DriveToCompletion(c, w, task, before, repo0, engineResult);
    repo, result, preserve, commits := SettleTurn(c, w, task, before, mid, driven);
  }
}
