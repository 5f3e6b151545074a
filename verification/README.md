# Verified core of the agent bus bridge

A Dafny model of the agent bus daemon and of the deterministic validators that sit beside it, with
proofs about whole runs of its protocols and about all inputs of its algorithms. `dafny verify
dfyconfig.toml` checks the project.

| file | what it models |
|---|---|
| `LeaseProtocol.dfy` | the two-record worktree lease protocol as a step relation over records, rows, worktrees, locks, ordinary worktree turns and results, with crashes between any two steps |
| `LeaseInvariant.dfy`, `LeaseBooks.dfy` | its invariant; durable results, one lease per request and quotas |
| `LeaseCauses.dfy`, `LeaseRequests.dfy` | on whose behalf and why each store changes; which request a reply answers and what a request can achieve |
| `LeaseLocks.dfy`, `LeasePaths.dfy` | exclusivity of the lease lock; steps the threads can always take next |
| `LeaseReplies.dfy`, `LeaseReplays.dfy`, `LeaseCounterexamples.dfy` | exactly when an ok arm reply, fresh or replayed, is true |
| `LaneReconcile.dfy`, `LaneSteps.dfy` | one quiescent lane reconcile pass, in place on the stores, and as steps of the protocol |
| `Completion.dfy` | the four stages after an engine turn, over a git model of commit store, HEAD and working tree |
| `Inbox.dfy`, `InboxSteps.dfy` | the reliable inbox: parking, claims, worker hand-off, acknowledgement, restart recovery; what each step does to the lists |
| `EnginePool.dfy` | the bounded engine pool |
| `BaseOverlap.dfy` | attribution of base-checkout changes by two counters |
| `Certification.dfy`, `Confidence.dfy` | certification cycles; noisy-or confidence |
| `DispatchLog.dfy` | the hash-chained dispatch log and the steer order check |
| `ImportClosure.dfy` | three import-closure loops against one notion of reachability |
| `Flusher.dfy` | the event tee, its bounded queue and its drop markers |
| `Escapes.dfy` | the escape decoder of the dispatch monitor |
| `Sealing.dfy`, `Padding.dfy` | neutral renaming of sealed files and equalising their sizes |
| `HuntDerive.dfy`, `HuntGraduation.dfy` | derivation of H2 candidates, completeness of a section, graduation |
| `Common.dfy`, `Strings.dfy` | optional values and counting; white space, numerals and delimiters |

Foreign code is a parameter. Redis, Postgres and git are state with atomic steps that may fail;
engine turns, commit outcomes, stream writes, file parses and hashes are arbitrary functions or
arbitrary answers, so every contract holds for all of them.

## What the proofs found

Some properties one would expect of the code do not hold of it. Each has a concrete run or input, or
the whole family of them, and the exact condition under which the property does hold.

- A fresh ok arm reply always has its record armed and its row matching, but not always its worktree:
  another armed lease or a running ordinary turn of the same worktree name can remove it first. It
  can be gone if and only if the name was taken in one of these two ways when the worktree was
  created (`LeaseReplies.SafeIffFree`); both ways have a run from boot
  (`LeaseCounterexamples.ReusedNameLosesWorktree`, `LeaseCounterexamples.TurnTakesWorktree`).
- A replayed ok, from the lease record or from the durable result, is true of record and row if the
  record is still armed, and of all three stores as long as no thread has closed the lease
  (`LeaseReplays.RecordReplayIsTrue`, `LeaseReplays.DurableReplayIsTrue`,
  `LeaseReplays.DurableReplayStands`). From every state in which it is about to be sent, a sweep can
  close the lease first (`LeaseReplays.RecordReplayCanBeStale`, `LeaseReplays.DurableReplayCanBeStale`).
- Collecting a tombstone unlinks the lock file without holding the lock, and acquiring opens the lock
  file before it locks it. The lock of a lease stays exclusive if and only if its file is never
  unlinked under a thread inside and no thread locks a file unlinked after it opened it
  (`LeaseLocks.MutualExclusion`); each way has a run from boot with two threads inside
  (`LeaseCounterexamples.CollectedLeaseHasTwoHolders`, `LeaseCounterexamples.UnlinkedFileHasTwoHolders`).
- With overlapping daemons a body in hand can be moved back to the inbox; it stays parked if and only
  if no daemon recovers a copy that is in hand (`Inbox.InHandIsParked`, `Inbox.OverlapTakesInHand`).
- `acquire` overwrites the books of a task id that is already busy: the pool's invariant survives a
  successful acquire if and only if the id was fresh (`EnginePool.Pool.Acquire`,
  `EnginePool.AcquireTwice`).
- Appending to a dispatch log hashes a caller-supplied `event_hash` before overwriting it, and lets a
  caller overwrite the link: the log stays valid if and only if the extra fields do neither
  (`DispatchLog.AppendKeepsValid`, `DispatchLog.OwnHashBreaks`). An event with a null hash is not
  checked, so a log can be altered under an unchanged last hash if and only if it has such an event
  (`DispatchLog.TamperableIffUnsealed`, `DispatchLog.UnhashedIsValid`).
- The six replacement passes use NUL as a scratch character: they equal one scan if and only if the
  input has no NUL (`Escapes.DecodeIsScanIffNoNul`).
- Line padding gives one line too many to an empty file and to one that ends with a line break other
  than a newline or a carriage return; byte padding rejoins lines with newlines and so loses the
  extra bytes of wider breaks. `Padding.NormalizedAlike` gives the exact classes of files that reach
  the common line count, that share one line count, and that reach the common byte length;
  `Padding.EmptyFileStandsOut` and `Padding.CarriageReturnFallsShort` are inputs outside them.
- A turn whose tree has stopped being a git tree can still end ok; `Completion.CompleteTurn` says
  exactly when.
- A failed worktree turn is not always kept for salvage: one that orchestrator commit refuses, for stray
  paths say, is not, so its worktree goes with automatic cleanup. `Completion.CompleteTurn` says
  exactly which are kept (`Completion.Keeps`).
- A sentinel file that cannot be read is taken for absent, so one that could be read before a turn and
  not after it is reported as an escape although nothing was written
  (`BaseOverlap.UnreadSentinelReportsEscape`). Every reported escape has a writer to blame if and only
  if the sentinel could be read both times or neither time (`BaseOverlap.AttributableIffSentinelReads`).

## Reading the hypotheses

- The lease model lets an arm start without the reconcile that precedes it, lets an exception end any
  critical section early, lets a sweep lock any lease ever recorded, and lets a row appear for an
  unknown lease at any time. One inbox thread arms; ordinary turns create and remove worktrees beside
  it.
- `Completion` requires that an engine's own result carries no completion block. Clauses that depend
  on it name the hypothesis that the optional commit-message turn leaves the tree alone
  (`ReadOnlyMessage`), because that turn runs between the stray-file check and `git add -A`.
- `DispatchLog` takes the digest as injective where it says so.
- `Confidence` computes over reals. Its laws are stated for any multiplication with the named laws
  and then for real multiplication in `NoisyOrLaws`.

## Model

| member | source | states |
|---|---|---|
| LeaseInvariant.StepKeepsInv | src/agent_redis_bridge/bridge.py:2139-2644 | every step of arm, replay, release, worker turn, ordinary turn, sweep, lane pass, collection, clock and crash keeps the protocol invariant: lock ownership, record states that only move forward, and what each thread knows at its place in its critical section |
| LeaseInvariant.RunKeepsInv | src/agent_redis_bridge/bridge.py:2139-2644 | the invariant holds in every state of every run from any stores an earlier boot can leave |
| LeaseLocks.MutualExclusion | src/agent_redis_bridge/worktree_lease.py:257-272 | over every run, every thread inside a lease owns the lock file in place up to a moment if and only if before it the file was never unlinked under a thread inside and never locked after being unlinked; then at most one thread is inside |
| LeaseLocks.ExclusivityStep | src/agent_redis_bridge/worktree_lease.py:257-315 | a step takes exclusivity of a lease away exactly when it unlinks the lock file under a thread inside or locks a lock file unlinked after it was opened |
| LeaseLocks.LanePassOwnsItsLock | src/agent_redis_bridge/bridge.py:2169-2279 | a lane pass that reclaims, tombstones or retires a lease owns its lock, if exclusivity was never broken in one of these two ways, and the lease is not healthy |
| LeasePaths.DroppedLockAdmitsRelease | src/agent_redis_bridge/bridge.py:2551-2558 | after such an unlinking a release request lets the inbox thread in beside the thread inside |
| LeasePaths.DroppedLockAdmitsPass | src/agent_redis_bridge/bridge.py:2260-2277 | and so does a lane pass of either reconciling thread as long as a row is left |
| LeasePaths.SweepCloses | src/agent_redis_bridge/worktree_lease.py:316-335 | from any state of the protocol the heartbeat sweep can close any armed lease the inbox thread is not inside, and remove its worktree |
| LeaseInvariant.LanePassSparesLiveLeases | src/agent_redis_bridge/bridge.py:2169-2279 | at the moment any lane pass reclaims, tombstones or retires a lease, in any interleaving, that lease does not have an armed record with a matching row, and the pass owns its lock or the lease was collected |
| LeaseCauses.ClosedForCause | src/agent_redis_bridge/bridge.py:2169-2644 | over every run, when a lease goes from armed to not armed its record is tombstoned then by a thread visiting it, and that visit is one of: a release asked for by the lease's own sender with the worktree there; a sweep, or a turn of its own sender, after its expiry; a sweep that found its worktree missing; a turn of its own sender that validated it; a lane pass while its row does not match; the compensation of its own arm |
| LeaseCauses.TreeGoesForCause | src/agent_redis_bridge/bridge.py:2281-2286 | over every run, a worktree goes only when an ordinary turn that made it ends, when an armed lease of that name is reclaimed for one of these causes, or when an arm gives up before it published a record |
| LeaseCauses.RowGoesForCause | src/agent_redis_bridge/bridge.py:2194-2279 | over every run, a row goes only from a lease that is not armed, by a lane pass or a release, or when the arm that wrote it takes back one that does not match |
| LeaseCauses.PassTakesForCause | src/agent_redis_bridge/bridge.py:2169-2279 | over every run, a lane pass takes a lease only for what it read, rows first and then records: a row of a tombstone, a row without a record, or an armed record without a matching row |
| LeaseCauses.RecordGoesWhenAged | src/agent_redis_bridge/worktree_lease.py:298-315 | over every run, a record goes only once it is a tombstone of at least the time to live of tombstones |
| LeaseCauses.ServedToOwner | src/agent_redis_bridge/bridge.py:2598-2644 | a lease a worker serves is armed, belongs to the sender who asked for the work, and was found unexpired, with its worktree and a matching row |
| LeaseRequests.OkAnswersItsRequest | src/agent_redis_bridge/bridge.py:2488-2550 | an ok reply answers a delivery that found no prior lease: the record has that request's sender, worktree name and id and the seat's lane, and lasts for its time to live from its publication |
| LeaseRequests.OkIsStoredForItsRequest | src/agent_redis_bridge/bridge.py:2287-2297 | the durable ok is stored under that request's id and names that lease |
| LeaseRequests.ReplayAnswersItsRequest | src/agent_redis_bridge/bridge.py:2344-2409 | a replayed ok answers a redelivery that found the armed lease of its own request id |
| LeaseRequests.ResultsStay | src/agent_redis_bridge/bridge.py:1436-1446 | over every run a durable result, ok or refusal, is never overwritten and stays until it expires |
| LeaseRequests.ArmCanSucceed | src/agent_redis_bridge/bridge.py:2488-2550 | from any state of the protocol with the inbox thread idle, an arm with a new request id, room in both quotas and a free worktree name can end in an ok reply |
| LeaseRequests.ReplayCanSucceed | src/agent_redis_bridge/bridge.py:2344-2409 | a redelivered arm of a lease with its row and worktree can be answered ok |
| LeaseRequests.OwnerCanRelease | src/agent_redis_bridge/bridge.py:2551-2578 | the sender of an unlocked armed lease with its worktree can have it released: record tombstoned, worktree removed, row retired, nothing else changed |
| LeaseRequests.WorkerCanServe | src/agent_redis_bridge/bridge.py:2598-2644 | a worker can serve every unlocked lease that is armed, unexpired and has its worktree and row |
| LeaseRequests.AnyoneCanLeave | src/agent_redis_bridge/bridge.py:2548-2578 | whatever a thread is doing for a lease or a request, an exception takes it out with its lock freed and the stores as they were |
| LeaseRequests.WorkerCanExpire | src/agent_redis_bridge/bridge.py:2939-2946 | a worker inside an expired lease, whether it served it or found it expired, can close it and remove its worktree |
| LeaseRequests.SweepCanBury | src/agent_redis_bridge/worktree_lease.py:325-331 | the heartbeat sweep can close an armed lease whose worktree is missing, before its expiry too |
| LeaseBooks.OnlyCreateGrows | src/agent_redis_bridge/bridge.py:2509-2577 | no step but publishing a fresh record adds a record, re-arms one or changes an armed one |
| LeaseBooks.StepKeepsBooks | src/agent_redis_bridge/bridge.py:2488-2550 | every step keeps: one record per arm request id, both quotas, and the pending request's freshness and quota room |
| LeaseBooks.RunKeepsBooks | src/agent_redis_bridge/bridge.py:2488-2550 | these hold in every state of every run |
| LeaseBooks.OneLeasePerRequest | src/agent_redis_bridge/bridge.py:2344-2550 | over every run of deliveries, redeliveries and crashes, armed leases stay within the global and per-sender quotas, and of two leases ever recorded for one request id one's tombstone was collected |
| LeaseBooks.StepKeepsResults | src/agent_redis_bridge/bridge.py:2287-2297 | every step keeps: a durable ok names the lease armed for its request, and if that lease is still armed its row matches |
| LeaseBooks.RunKeepsResults | src/agent_redis_bridge/bridge.py:2287-2297 | the same in every state of every run |
| LeaseReplies.StepKeepsTree | src/agent_redis_bridge/bridge.py:2509-2550 | once an arm has created its worktree under a free name, every step of every thread and turn keeps it and keeps its name free until the arm ends |
| LeaseReplies.FreshOkReplyIsTrue | src/agent_redis_bridge/bridge.py:2509-2550 | a fresh ok reply is sent only while its record is armed and its row matches, and only while its worktree exists if its name was free when it was created |
| LeaseReplies.SafeIffFree | src/agent_redis_bridge/bridge.py:2509-2550 | at every state about to create an arm's worktree: no continuation ends in an ok reply without it if and only if no other armed lease and no running ordinary turn has the name |
| LeaseReplies.TakenCanLose | src/agent_redis_bridge/bridge.py:2770-2938 | for a taken name, the continuation that loses the worktree |
| LeaseReplays.RecordReplayIsTrue | src/agent_redis_bridge/bridge.py:2344-2409 | a reply replayed from a lease record has its row matching if the record is armed; and if the record was armed under its own name when the worktree was seen and nobody closed the lease since, record, row and worktree are all there |
| LeaseReplays.RecordReplayCanBeStale | src/agent_redis_bridge/bridge.py:2344-2409 | from every state about to send such a reply for an armed lease, a sweep can first tombstone the record and remove the worktree |
| LeaseReplays.StandsStep | src/agent_redis_bridge/bridge.py:2139-2644 | a lease with armed record, matching row and its own worktree keeps all three through a step if and only if the step is not the removal of its worktree or its tombstone by a thread inside it |
| LeaseReplays.StandsUntilClosed | src/agent_redis_bridge/bridge.py:2139-2644 | over runs it stands until closed |
| LeaseReplays.DurableReplayIsTrue | src/agent_redis_bridge/bridge.py:1436-1446 | a durable ok that is replayed names the lease armed for its request, whose row matches if it is still armed |
| LeaseReplays.DurableReplayStands | src/agent_redis_bridge/bridge.py:1436-1446 | stored for an arm under a free name, it finds record, row and worktree as long as nobody closed the lease |
| LeaseReplays.DurableReplayCanBeStale | src/agent_redis_bridge/bridge.py:1436-1446 | from every state with a durable ok for an armed lease, a sweep can close the lease while the ok stays to be replayed |
| LeaseCounterexamples.LeftIsBoot | src/agent_redis_bridge/bridge.py:2139-2167 | the stores the counterexample runs start from are stores a boot may find |
| LeaseCounterexamples.DurableReplayOutlivesLease | src/agent_redis_bridge/bridge.py:1436-1446 | a run from boot in which a durable ok is to be replayed after its lease was closed |
| LeaseCounterexamples.CollectedLeaseHasTwoHolders | src/agent_redis_bridge/worktree_lease.py:299-315 | a run from boot: a lane pass holds an aged tombstone with a leftover row while the other thread collects it and takes it as an orphan row; both may retire the row |
| LeaseCounterexamples.UnlinkedFileHasTwoHolders | src/agent_redis_bridge/worktree_lease.py:257-315 | a run from boot: a lane pass opens the lock file, the other thread collects the tombstone with nobody inside, the pass locks the unlinked file and the other thread locks a new one; both are inside |
| LeaseCounterexamples.ReusedNameLosesWorktree | src/agent_redis_bridge/bridge.py:2509-2550 | a run from boot to an arm under the name of an armed lease, and on to an ok reply without the worktree |
| LeaseCounterexamples.TurnTakesWorktree | src/agent_redis_bridge/bridge.py:2930-2938 | the same where no armed lease has the name but a running ordinary turn does |
| LaneReconcile.SettledAgrees | src/agent_redis_bridge/bridge.py:2169-2279 | from any stores, the settled rows and armed records agree exactly, and settling again changes nothing |
| LaneReconcile.SettlingSparesLive | src/agent_redis_bridge/bridge.py:2169-2279 | a lease that was right keeps record and row, and keeps its worktree if and only if no doomed lease has the same worktree name |
| LaneReconcile.Seat.SettleRecord | src/agent_redis_bridge/bridge.py:2194-2258 | handling one record of the snapshot extends the settled part by exactly that record, and reports exactly what was due for it and why |
| LaneReconcile.Seat.SettleRecords | src/agent_redis_bridge/bridge.py:2194-2258 | the record loop settles every record whatever the order and reports exactly what was due |
| LaneReconcile.Seat.DropOrphanRows | src/agent_redis_bridge/bridge.py:2260-2279 | the row loop retires and reports exactly the rows without a record |
| LaneReconcile.Seat.ReconcileLaneRows | src/agent_redis_bridge/bridge.py:2169-2279 | one pass reaches exactly the settled stores, which agree; its actions are exactly what was due, each lease once and with its reason, and there are none if and only if the stores agreed |
| LaneReconcile.ReconcileTwice | src/agent_redis_bridge/bridge.py:2169-2279 | a second pass takes no action and changes nothing |
| LaneSteps.CrashThenPass | src/agent_redis_bridge/bridge.py:2169-2279 | from any stores just after a crash, the heartbeat thread has a sequence of protocol moves that leaves exactly the settled stores, so rows and armed records agree |
| LaneSteps.SettlesOne | src/agent_redis_bridge/bridge.py:2194-2258 | the moves that settle one record, whichever case it is |
| Completion.MissingNone | src/agent_redis_bridge/completion_gate.py:252-258 | no artifact is listed missing if and only if every expected path exists |
| Completion.CleanVerdict | src/agent_redis_bridge/completion_gate.py:226-249 | a verdict that does not bounce means nothing became dirty since the baseline |
| Completion.VerdictMeans | src/agent_redis_bridge/completion_gate.py:226-249 | each of the five states holds exactly for its combination of a known baseline, a moved HEAD and new dirt |
| Completion.AllowedIffNamed | src/agent_redis_bridge/bridge.py:3517-3530 | a path passes the allowed check if and only if the task names it, allows it, or allows a directory above it, trailing slashes aside |
| Completion.PresentMeans | src/agent_redis_bridge/completion_gate.py:252-258 | an expected path exists if and only if it is the root, a file or a directory above a file |
| Completion.CommittedMeans | src/agent_redis_bridge/bridge.py:3507-3515 | a path counts as committed if and only if git can compare and it differs between the start and HEAD |
| Completion.ContainsMeans | src/agent_redis_bridge/bridge.py:3377-3382 | the timeout test finds its phrase if and only if the error holds it somewhere |
| Completion.ContinuableIffNotStopped | src/agent_redis_bridge/bridge.py:3245-3254 | a turn can go on if and only if it was not stopped and did not end without a tool call and without a word |
| Completion.IncompleteIffUnfinished | src/agent_redis_bridge/bridge.py:3256-3272 | the loop's predicate holds if and only if contracted artifacts are missing or, without a contract, something became dirty |
| Completion.FullStageIsClean | src/agent_redis_bridge/bridge.py:3360-3367 | a commit of everything git would take leaves nothing dirty |
| Completion.ChildIsAllowed | src/agent_redis_bridge/bridge.py:3342-3357 | a commit on the starting HEAD of dirt that passed the stray check changes only allowed paths |
| Completion.DriveToCompletion | src/agent_redis_bridge/bridge.py:3193-3272 | the loop makes exactly the continuations called for: each follows an ok, unstopped, uncancelled, unfinished turn of a sound session that moved HEAD or the dirty set, and it stops only out of budget or when the next is not called for |
| Completion.CommitAll | src/agent_redis_bridge/bridge.py:3360-3367 | a bridge commit makes one fresh child of HEAD, rewrites no stored commit, leaves files alone, and changes only paths that were dirty |
| Completion.OrchestratorCommit | src/agent_redis_bridge/bridge.py:3300-3374 | decides exactly the ok contracted turns whose artifacts are there; adopting, committing and each refusal happen exactly in their own case of HEAD, new dirt and stray paths; the turn is accepted as the bridge's own if and only if what is left is all named and the commit succeeds, moves HEAD and leaves no new dirt |
| Completion.PostTimeoutAdopt | src/agent_redis_bridge/bridge.py:3393-3505 | looks at exactly the timed-out contracted turns; each tag is given exactly in its own case, the turn turns ok if and only if the bridge's commit leaves a clean tree, and the worktree is kept unless it holds a clean commit or nothing |
| Completion.ApplyCompletionGate | src/agent_redis_bridge/bridge.py:3131-3191 | leaves failed and decided turns alone, marks a shared directory as unchecked, and passes any other turn if and only if it is clean and complete; exactly a bounced worktree is kept |
| Completion.CompleteTurn | src/agent_redis_bridge/bridge.py:2822-2854 | the pipeline says ok if and only if the turns' outcome is accepted, told from the tree they left; whichever branch says ok, nothing became dirty as git reports it and every artifact exists; at most one bridge commit, on the starting HEAD; under a contract with a clean start only allowed paths were committed; failure turns ok only through timeout adoption; and where the tree is no longer a git tree, ok means exactly that the turn was ok, its artifacts exist and no commit was asked for |
| Inbox.RemoveFirst | src/agent_redis_bridge/redis_io.py:11-18 | removing a body takes exactly one copy off the list |
| Inbox.RunConserves | src/agent_redis_bridge/bridge.py:1178-1311 | in every run, with overlapping daemons and crashes, each delivery is in the inbox, parked or acknowledged once, and acknowledgements by a daemon never outnumber the handlings that ended in it |
| Inbox.NothingIsLost | src/agent_redis_bridge/bridge.py:1178-1311 | at-least-once: deliveries that left the lists are covered by handlings that came to their end |
| InboxSteps.AckStep | src/agent_redis_bridge/redis_io.py:11-18 | an acknowledgement takes the oldest copy of the body off the processing list and is logged if and only if it comes from the current claimant and the body is parked; otherwise nothing changes but the claimant's claim |
| InboxSteps.ListShrinksIff | src/agent_redis_bridge/redis_io.py:11-27 | in every run the processing list gets shorter exactly when a claimant acknowledges a parked body or a daemon puts one back, and longer exactly when one is parked |
| Inbox.FirstIndex | src/agent_redis_bridge/redis_io.py:11-18 | the copy removed is the first |
| InboxSteps.HandledIsAcknowledged | src/agent_redis_bridge/bridge.py:1178-1287 | a body handled on the inbox loop of its claimant leaves both lists for the log |
| InboxSteps.WorkedIsAcknowledged | src/agent_redis_bridge/bridge.py:2968-2974 | and so does one handed to a worker |
| InboxSteps.BootRecovers | src/agent_redis_bridge/bridge.py:1289-1311 | a boot with nobody else at the lists puts every parked body back, in order and unclaimed, and is then ready |
| Inbox.InHandIsParked | src/agent_redis_bridge/bridge.py:1646-1660 | in every run, overlapping daemons and crashes included, every copy of a body in any thread's hand stays parked up to a moment if and only if no daemon recovered a copy in hand before |
| Inbox.CoverStep | src/agent_redis_bridge/redis_io.py:20-27 | a step takes a body in hand off the list exactly when a daemon recovers it although every parked copy is in hand |
| Inbox.OverlapTakesInHand | src/agent_redis_bridge/bridge.py:1289-1311 | a run of two overlapping daemons in which that happens |
| Inbox.SoleDaemonKeepsParked | src/agent_redis_bridge/bridge.py:1646-1660 | when a daemon boots only once its predecessor is gone it never does |
| Inbox.BodiesMonotone | src/agent_redis_bridge/bridge.py:2968-2974 | acknowledgements backed entry by entry by ended handlings are backed body by body |
| Inbox.RecoverProcessing | src/agent_redis_bridge/bridge.py:1289-1311 | boot recovery loses and duplicates nothing even when it gives up, and otherwise empties the processing list into the front of the inbox in parking order |
| EnginePool.Pool.constructor | src/agent_redis_bridge/engine_pool.py:37-48 | a new pool is valid and empty |
| EnginePool.Pool.TakeIdle | src/agent_redis_bridge/engine_pool.py:79-89 | hands over one idle engine; the books stay right if and only if that task id is fresh |
| EnginePool.Pool.FindThread | src/agent_redis_bridge/engine_pool.py:65-78 | each of the four answers has exactly its cause: one idle, one busy, no engine, two or more on the thread |
| EnginePool.Pool.AcquireThread | src/agent_redis_bridge/engine_pool.py:65-83 | hands the engine over if and only if it is the only one on the thread and idle; refuses as missing, busy or ambiguous if and only if there is none, one busy one, or two or more; a refusal changes nothing |
| EnginePool.Pool.Register | src/agent_redis_bridge/engine_pool.py:107-109 | books a started engine; valid if and only if that task id is fresh |
| EnginePool.Pool.Acquire | src/agent_redis_bridge/engine_pool.py:85-110 | succeeds exactly when an engine is idle, and then it is the last one, or there is a free slot and the new engine starts; an engine that fails to start is stopped, and only that one, and the books are as before |
| EnginePool.Pool.RetireIdle | src/agent_redis_bridge/engine_pool.py:123-138 | the last idle engine leaves the pool and is stopped |
| EnginePool.Pool.Reserve | src/agent_redis_bridge/engine_pool.py:112-138 | succeeds exactly when that task id is not busy and there is capacity; when full it stops the last idle engine and nothing else |
| EnginePool.Pool.FreeReservation | src/agent_redis_bridge/engine_pool.py:158-162 | gives a reserved slot back |
| EnginePool.Pool.ReturnEngine | src/agent_redis_bridge/engine_pool.py:163-180 | an engine goes idle or, unhealthy or retiring, is stopped with its slot freed |
| EnginePool.Pool.Release | src/agent_redis_bridge/engine_pool.py:152-180 | keeps the pool valid for every task id, busy or not |
| EnginePool.Pool.StopAll | src/agent_redis_bridge/engine_pool.py:195-208 | exactly the live engines, idle and busy, are stopped, each once; the started counter is not reset and stays an upper bound |
| EnginePool.AcquireTwice | src/agent_redis_bridge/engine_pool.py:85-110 | acquiring one task id twice breaks the books |
| BaseOverlap.Counters.constructor | src/agent_redis_bridge/bridge.py:2801-2806 | counters start at zero on an empty trace |
| BaseOverlap.Counters.BeginTurn | src/agent_redis_bridge/bridge.py:2801-2806 | counts a base turn and a generation |
| BaseOverlap.Counters.FinishTurn | src/agent_redis_bridge/bridge.py:2979-2980 | uncounts a base turn and leaves the generation |
| BaseOverlap.Counters.OverlappedSince | src/agent_redis_bridge/bridge.py:3007-3012 | the flag is set if and only if some base turn was active at some moment between the two reads |
| BaseOverlap.OverlapIsExact | src/agent_redis_bridge/bridge.py:2746-2757 | the same over every trace and every pair of reads, turns that start and finish inside included |
| BaseOverlap.VerdictByCause | src/agent_redis_bridge/bridge.py:2989-3129 | for every trace, reads and probe outcomes: an escape is reported, the turn failed and its worktree kept, if and only if no base turn was active between the reads, both probes found the repository, and the sentinel reads differently or, both probes having worked, the fingerprint does; every other verdict has exactly its cause and leaves the turn's answer alone |
| BaseOverlap.WriteIsNoticed | src/agent_redis_bridge/bridge.py:2989-3129 | a last write between the snapshots that changes the fingerprint is always noticed: as an escape without a base turn, as not attributable with one |
| BaseOverlap.EscapeIsAttributable | src/agent_redis_bridge/bridge.py:3003-3129 | a reported escape had no base turn beside it and a foreign writer inside it, if the sentinel could be read both times or neither time |
| BaseOverlap.UnreadSentinelReportsEscape | src/agent_redis_bridge/completion_gate.py:84-95 | a sentinel read one time and not the other is reported as an escape although nothing was written |
| BaseOverlap.AttributableIffSentinelReads | src/agent_redis_bridge/completion_gate.py:84-95 | every escape two probes can report has a foreign writer if and only if the sentinel could be read both times or neither time |
| Certification.SettleOne | skills/_diagnose_common/neutral_validators.py:199-210 | a node whose successors are all settled is settled: closed under edges and on no cycle |
| Certification.CloseCycle | skills/_diagnose_common/neutral_validators.py:200-201 | meeting a node of the current path again exhibits a directed cycle |
| Certification.Visit | skills/_diagnose_common/neutral_validators.py:199-210 | the recursive visit terminates, answers true only on a cycle, and otherwise settles the node and restores the visiting set |
| Certification.BuildGraph | skills/_diagnose_common/neutral_validators.py:192-194 | the adjacency map holds exactly the edges |
| Certification.DetectCycle | skills/_diagnose_common/neutral_validators.py:191-212 | true if and only if the graph has a directed cycle |
| Certification.EvidenceMeans | skills/_diagnose_common/neutral_validators.py:215-221 | a reference is live data exactly when it starts with `live:`, and a file line exactly when it is not and ends in a colon and a number after something |
| Certification.OwnReasons | skills/_diagnose_common/neutral_validators.py:61-72 | each reason of one predicate has exactly its cause |
| Certification.PredicateBlocks | skills/_diagnose_common/neutral_validators.py:58-79 | `reciprocal-certification` is raised if and only if some predicate certifies itself by seat or model or the seats form a cycle |
| Confidence.BestTable | skills/diagnose-steer/steer_validators.py:45-52 | each alternative with a certified predicate, and no other, gets the largest weight backing it, at least 0 |
| Confidence.CertifiedIff | skills/diagnose-steer/steer_validators.py:130-136 | a predicate counts if and only if another seat and another model certified it and its evidence has the category declared |
| Confidence.WeightIsWorth | skills/diagnose-steer/steer_validators.py:45-52 | its weight is nothing without an excluded value, and otherwise the strength of live, file or no evidence, by its reference |
| Confidence.TableGrows | skills/diagnose-steer/steer_validators.py:45-52 | more certified predicates give more alternatives with no smaller weights |
| Confidence.DoubtTakes | skills/diagnose-steer/steer_validators.py:53-55 | the product over alternatives does not depend on the order of its factors |
| Confidence.DoubtBounds | skills/diagnose-steer/steer_validators.py:53-55 | with cap in [0,1] the product of n factors lies between (1-cap)^n and 1 |
| Confidence.DoubtFalls | skills/diagnose-steer/steer_validators.py:53-55 | the product never rises when alternatives are added or strengthened |
| Confidence.Product | skills/diagnose-steer/steer_validators.py:53-55 | the loop computes that product in any order |
| Confidence.ComputeConfidence | skills/diagnose-steer/steer_validators.py:40-57 | Q is one minus the product over the best table; confidence is P_max times Q |
| Confidence.ConfidenceBounds | skills/diagnose-steer/steer_validators.py:40-57 | Q lies in [0, 1-(1-cap)^k] for k distinct certified alternatives |
| Confidence.ConfidenceGrows | skills/diagnose-steer/steer_validators.py:40-57 | Q never falls when predicates are added |
| Confidence.ConfidenceIgnoresTheRest | skills/diagnose-steer/steer_validators.py:40-57 | only the set of certified predicates matters: reordering, repeating or dropping uncertified ones changes nothing |
| Confidence.NoisyOrLaws | skills/diagnose-steer/steer_validators.py:40-57 | the three laws for the computed confidence |
| DispatchLog.Validate | skills/_diagnose_common/clock.py:72-98 | each reported reason holds exactly when its cause is present among the numbered events, and there is none if and only if the log is valid |
| DispatchLog.CheckEvent | skills/_diagnose_common/clock.py:82-97 | the checks on one event extend the explanation by exactly that event |
| DispatchLog.ValidMeans | skills/_diagnose_common/clock.py:72-98 | a log is valid if and only if every event carries its position, the six required fields, the hash of the event before it and its own hash, if not null |
| DispatchLog.AppendKeepsValid | skills/_diagnose_common/clock.py:38-69 | appending leaves a valid log if and only if the log was valid and the extra fields hold no `event_hash` and no other `prev_hash` |
| DispatchLog.LogFile.Append | skills/_diagnose_common/clock.py:38-69 | refuses exactly when `seq` is supplied or there is no hash to link to, else appends one event with the next number, each field of the stamp under its name, the link to the last, the extra fields over those, and the hash of all of it |
| DispatchLog.TipVouchesForLog | skills/_diagnose_common/clock.py:72-98 | with an injective digest, a valid log whose events all carry a hash is the only valid log with its last hash |
| DispatchLog.TamperableIffUnsealed | skills/_diagnose_common/clock.py:93-97 | another valid log has the same last hash if and only if some event's hash is null |
| DispatchLog.UnhashedIsValid | skills/_diagnose_common/clock.py:93-97 | a one-event log with a null hash is valid whatever its artifact |
| DispatchLog.OwnHashBreaks | skills/_diagnose_common/clock.py:65-66 | a first event appended with the caller's own `event_hash` makes an invalid log |
| DispatchLog.MaxOf | skills/_diagnose_common/clock.py:101-107 | the largest sequence number of the listed events, if any |
| DispatchLog.ValidSeqsArePositions | skills/_diagnose_common/clock.py:101-107 | in a valid log the sequence numbers of a type are the positions of its events |
| DispatchLog.DispatchBlocks | skills/diagnose-steer/steer_validators.py:64-77 | a log passes if and only if it is valid, has both kinds of event, and every blind submission precedes every steer |
| ImportClosure.ReachableIffLeastClosed | skills/diagnose/extraction.py:55-70 | being the reachable set and being the least set with the roots and closed under the edges are the same |
| ImportClosure.NormaliseIsIdempotent | skills/diagnose/extraction.py:123-124 | normalising a path twice is normalising it once |
| ImportClosure.Normalise | skills/diagnose/extraction.py:123-124 | all leading dots and slashes of either kind are gone, nothing else is, and backslashes are slashes |
| ImportClosure.PushImports | skills/diagnose/extraction.py:66-69 | pushes only imports that were not seen, after what was there, and misses none |
| ImportClosure.FilesBehind | skills/diagnose/extraction.py:55-70 | the depth-first worklist terminates, raises if and only if some file in reach does not parse, and otherwise returns exactly the readable files in reach |
| ImportClosure.EnqueueTargets | scripts/changed_test_mutation_gate.py:125-133 | queues only scoped imports that were not seen and misses none; scoped imports are refused, the others become candidates |
| ImportClosure.VisitSources | scripts/changed_test_mutation_gate.py:118-133 | the breadth-first worklist terminates having visited exactly the reachable sources |
| ImportClosure.ClosePair | scripts/changed_test_mutation_gate.py:107-136 | the refused set is the reachable scoped closure plus package files, the legal set is what they import outside the scoped trees, the two are disjoint, and the final filter drops nothing |
| ImportClosure.LocalImportClosure | skills/defect_hunts/scenarios.py:129-137 | the rounds terminate at the least set with the roots and closed under local imports |
| Flusher.StepKeepsBooks | src/agent_redis_bridge/bridge.py:4423-4485 | every atomic step keeps each event and each drop's marker in exactly one place and the totals balanced |
| Flusher.RunKeepsBooks | src/agent_redis_bridge/event_flusher.py:35-82 | in every interleaving at every moment: drops = markers written + queued + in flight + given up, and likewise for events |
| Flusher.ProcessedShrinks | src/agent_redis_bridge/event_flusher.py:51-57 | one turn of the drain shrinks 2 x events + markers, and only a failed marker write gives up a marker |
| Flusher.EventFlusher.constructor | src/agent_redis_bridge/event_flusher.py:11-31 | a new flusher is empty and its books balance |
| Flusher.EventFlusher.Enqueue | src/agent_redis_bridge/event_flusher.py:35-40 | appends if and only if there is room |
| Flusher.EventFlusher.HandleDrop | src/agent_redis_bridge/bridge.py:4423-4432 | counts the drop and queues its numbered marker, or counts the marker as lost if and only if there is no room |
| Flusher.EventFlusher.Tee | src/agent_redis_bridge/bridge.py:4386-4404 | a lone tee queues the event or runs the drop handler, and keeps the books |
| Flusher.EventFlusher.ProcessItem | src/agent_redis_bridge/event_flusher.py:66-82 | writes the item or runs the handler its kind calls for |
| Flusher.EventFlusher.FlushPending | src/agent_redis_bridge/event_flusher.py:51-57 | whatever each write answers, the drain ends with an empty queue after at most 2 x events + markers writes, gives up a marker only when its own write failed, and then drops = markers written + marker drops |
| Escapes.DecodeIsScan | pi-extensions/arb-dispatch-monitor.ts:129-135 | on a string without NUL the six passes equal one left-to-right scan |
| Escapes.DecodeIsScanIffNoNul | pi-extensions/arb-dispatch-monitor.ts:129-135 | they agree if and only if the string has no NUL |
| Escapes.ScanInvertsEscape | pi-extensions/arb-dispatch-monitor.ts:129-135 | the scan inverts escaping of backslash, quote, newline, carriage return and tab (section 7 of RFC 8259) |
| Escapes.DecodeInvertsEscapeIffNoNul | pi-extensions/arb-dispatch-monitor.ts:129-135 | decoding inverts escaping if and only if the string has no NUL |
| Sealing.TextIsInjective | skills/defect_hunts/scenarios.py:297-307 | different neutral names, collision suffix included, are different strings |
| Sealing.NeutralLabel | skills/defect_hunts/scenarios.py:297-308 | the proposal is kept unless it is taken; a taken proposal is a module name, and adding the file's number makes it new |
| Sealing.PartsMean | skills/defect_hunts/scenarios.py:297-304 | the last part of a path has no slash, and its suffix starts with its last dot unless that is first or final |
| Sealing.PathRenames | skills/defect_hunts/scenarios.py:293-309 | every path is renamed, no two alike, to the name its last part calls for: a package file and any other file by its number, a module by its module number and, exactly where an earlier path has that name, its own number as well |
| Padding.PadLinesCount | skills/defect_hunts/scenarios.py:574-582 | line padding keeps the file's lines, adds only pad lines and gives the target count, one more exactly for an empty file or one that ends with an odd break |
| Padding.PadBytesCount | skills/defect_hunts/scenarios.py:585-593 | byte padding keeps the lines but for trailing spaces, and falls short of the target by exactly the bytes that rejoining with newlines saves |
| Padding.Utf8Lengths | skills/defect_hunts/scenarios.py:585-593 | the byte length of a character is that of UTF-8 (section 3 of RFC 3629) |
| Padding.RejoinSaves | skills/defect_hunts/scenarios.py:585-593 | splitting a closed text and joining with newlines saves exactly the extra bytes of its wider breaks |
| Padding.NoExcess | skills/defect_hunts/scenarios.py:585-593 | nothing is saved if and only if there is no such break |
| Padding.FileIsNormalized | skills/defect_hunts/scenarios.py:550-571 | for every content: its lines survive, its line count is the target or one more, and its byte length is the target if and only if it was the longest once line padded or its body, closed with a newline, holds no break wider than a byte |
| Padding.NormalizedAlike | skills/defect_hunts/scenarios.py:550-593 | all files reach one line count, a multiple of 16, if and only if none is empty or ends with an odd break; they share one line count if and only if none or all are; they reach one byte length if and only if none but the longest holds a break wider than a byte |
| Padding.EmptyFileStandsOut | skills/defect_hunts/scenarios.py:574-582 | an empty file beside one that is not ends with one line more |
| Padding.CarriageReturnFallsShort | skills/defect_hunts/scenarios.py:585-593 | a line ended by a carriage return and a newline, beside a longer file, misses the common byte length |
| HuntDerive.IdIsInjective | skills/defect_hunts/h2_derive.py:20-21 | an id determines kind, path, callee and number, even where the path holds the delimiters |
| HuntDerive.KindMeans | skills/defect_hunts/h2_derive.py:132-155 | each kind has exactly its callees |
| HuntDerive.ListedUpToIsExact | skills/defect_hunts/h2_derive.py:44-66 | a call is listed if and only if fewer matching calls came before it on its line text than copies of that text were added |
| HuntDerive.ListedIsMin | skills/defect_hunts/h2_derive.py:44-66 | per file and line text the number listed is the smaller of matching calls and added copies |
| HuntDerive.DeriveFile | skills/defect_hunts/h2_derive.py:28-66 | the loop over one file yields exactly the listed calls, in order, numbered among all calls of that kind and callee |
| HuntDerive.Derive | skills/defect_hunts/h2_derive.py:24-68 | over all files, exactly the listed calls, with pairwise distinct ids |
| HuntGraduation.CompleteIffCovers | skills/defect_hunts/h2_assumptions.py:77-99 | a section is complete if and only if it is acknowledged, every row and additional row is sound, and its rows name every derived id, only derived ids, and none twice |
| HuntGraduation.CoversCounts | skills/defect_hunts/h2_assumptions.py:77-99 | with distinct derived ids such rows are as many as the ids |
| HuntGraduation.RecordSays | skills/bridge-protocol/gate/gate.py:393-436 | a record keeps the derived ids and the dispositions in order and is complete if and only if there is such a section |
| HuntGraduation.CompleteRecordIsFull | skills/bridge-protocol/gate/gate.py:393-436 | a complete record disposes as many candidates as were derived, each with a known disposition |
| HuntGraduation.ReviewRun | skills/bridge-protocol/gate/gate.py:381-436 | deriving and recording yields the ids of exactly the listed calls of every file, and a complete record exactly for a complete section |
| HuntGraduation.DispositionCounts | skills/defect_hunts/h2_graduation.py:54-66 | each counter is the number of rows of all records with its disposition |
| HuntGraduation.DisposedIsDerived | skills/defect_hunts/h2_graduation.py:54-70 | over complete records the three dispositions together are as many as the candidates derived |
| HuntGraduation.FpRate | skills/defect_hunts/h2_graduation.py:16-22 | the share of not-load-bearing rows among the known rows of complete records, none exactly when there are no such rows |
| HuntGraduation.IsGraduationReady | skills/defect_hunts/h2_graduation.py:25-47 | ready if and only if every enabled guard holds of the number of records and of rows by disposition in its window |
| HuntGraduation.GraduationIgnoresOrder | skills/defect_hunts/h2_graduation.py:16-47 | readiness and rate do not depend on the order of the records |
| HuntGraduation.GraduationIsEarned | skills/defect_hunts/h2_graduation.py:25-47 | with every guard on, ready if and only if ten runs are complete, at least 20 candidates were derived in them, some of these and not all turned out not load bearing, and fewer than a tenth did |

## Left out

- HuntGraduation.FpRate: computes over reals, not floating point.
- Confidence.ComputeConfidence: computes over reals, and requires an evidence reference on every predicate.
- Lease stores: the repository identity filter, corrupt-record quarantine and empty ids are not modelled; the reads of one lease validation are one step.
- LeaseBooks.OneLeasePerRequest: the quotas are those of every boot of the run; quotas lowered between boots are not modelled.
- A seat without a lane writer, which keeps no rows.
- LeaseLocks.MutualExclusion: threads that lock the same unlinked file do not exclude each other in the model; exclusivity of the lease is gone by then.
- Certification.PredicateBlocks: a line number in an evidence reference is read as ASCII digits.
- EnginePool.Pool.Acquire: a factory that raises, which changes nothing, is not modelled.
- LeaseReplies.SafeIffFree: speaks of a seat whose database lane is the configured one; on any other no arm replies ok.
- Several daemons arming the same seat at once: one inbox thread arms.
- Git: the index, renames, submodules and hooks; a commit stages any mixture of HEAD and working tree.
- DispatchLog: equality of numbers with a fraction and integers, and file reading and writing.
- ImportClosure: symbolic links and the resolution of module names to paths, which are inputs.
- HuntDerive: parsing, the choice of module-level calls and the reading of diffs, which are inputs.
- Flusher: the local tee without a remote stream, stream trimming, and a missing flusher.
- Sealing: symbol and text renaming inside files.
- Redis ownership heartbeats, engine adapters, prompts, argument parsing and the UI: plumbing.
- `claim_gate.py`, `claim_resolver.py`, `dispatch_authority.py`, `envelope.py`, `exempt_git.py` and the report scripts would only add easy members.
