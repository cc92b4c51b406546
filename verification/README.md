# Verified model of the agent job relay

The relay hands tasks from one agent to another through a queue kept in one file on one
machine. Any number of processes share it: dispatchers enqueue, workers claim jobs under a
lease and a fencing token, operators recover and review. This project models that queue and
the protocols around it, and proves what every interleaving of callers and clock readings
keeps.

`dafny verify dfyconfig.toml` checks the whole project.

## How it is built

- `RelayTypes`, `JobSweep`, `StoreSteps` say what one store call does to the store file:
  load, sweep, prune, operation, write back. `StoreSteps.Step` always writes back.
- `StoreLaws` says the same in states, fields and numbers, call by call, without that
  definition: what each operation makes of a job and exactly when it is accepted, what
  expiry and retention do, what an inbox lists. `ExpiresTo` and `PruneIsExact` of `JobSweep`
  and `IsNewJob` of `Dedup` belong to it.
- `RelayJobs` is the program's form of it: a store file, an in-memory copy that is swept and
  mutated, and a write-back only after a change. Each method is proved to leave the file and
  give the answer of `Step`.
- `StoreRuns` defines a run, any sequence of calls by any callers, each with a clock
  reading of its own. Readings may go backwards: the source takes them before it has the
  lock. Everything in `JobLives`, `Fencing`, `Retries`, `Gates`, `Leases` and `Dedup` holds for
  every run. `RoundTrips` says what operations undo.
- `RelayWorker` and `RelayDispatch` are the worker protocol: methods over the shared store
  in which the other callers may do anything between two calls of the worker. Their contracts
  are read off the history of calls; `WorkerHistory` has the vocabulary. `WaitLimit` and
  `Witnesses` show exactly where the protocol falls short.
- `FileLock` and `WorkerLifecycle` are state machines over interleaved steps: file-system
  steps of the lock, and locked sections of daemon starters, adopters, timeouts and stops.
  `LockedStore` puts loading and writing back inside the lock's critical section and proves
  that the store's calls are whole steps of a run; `StaleWrites` says when they are not.
- `RelayOwned`, `RelayHook` and `ReviewMarker` are the session's owned record, the
  notification hook and the scan of a turn's output.

## What the proofs found

- **A write job can run twice.** The stored task decides the lease policy, but the wait
  limit of a dispatch parks or releases by the flag of its own task. A dispatch that is
  deduplicated onto a write job, while its own task says read-only but writes are allowed,
  runs it, and releases it at the limit while it is running; the next worker starts it
  again with no recovery between (`MismatchedFlagRunsTwice`), against README.md:202 of the
  repository. With a write job
  running in time under the dispatch's claim, such a continuation exists if and only if the
  dispatch's own task is read-only (`WaitLimitIsSafeExactly`).
- **The lock can fail.** Header comments say that a stale lock is taken over by one process
  only and that a process never deletes another's lock. As long as no lock file of a live
  holder is renamed away, one process at most is in its section and a release unlinks its
  own file (`MutualExclusion`). A steal breaks each promise under a condition of its own,
  with no further live steal needed:
  - two processes in their sections, if and only if the renamed file's creator was about to
    enter or in its section, or about to unlink while a third process can enter
    (`StealIsFatalExactly`);
  - a release that deletes another's lock, if and only if the creator was about to unlink
    (`StealDropsExactly`, with the run `StolenReleaseHappens`);
  - a stale store written back, if and only if the creator had not written back yet, or was
    about to unlink while a third process can enter (`StealOverwritesExactly`, with the
    lost update `LiveStealLosesAnUpdate`). With no such steal the store's calls are atomic
    (`LockedCallsAreARun`).

  Judging stale only the locks of dead processes is enough for two processes and for no
  more, because stat and rename are two steps (`HonestyIsEnoughExactly`).
- **`complete` is idempotent, so its "ok" says less than the others'.** A caller that held
  the claim gets an "ok" for a completion it did not make if and only if the job is still
  retained and another call completed it under the same token in between
  (`CompletionAnswer`, with the run `CompletedForIt`). Every other outcome a worker reports
  is its own, only settlement.
- **A killed daemon can be recorded as running.** The timeout's unlink swallows errors. After
  the kill the child can still come to be recorded as running if and only if that unlink
  failed (`KillIsFinalExactly`).
- The branch of `resolveReview` that writes fields and yet reports no change is never taken
  (`UnchangedActKeeps`).

## Reading the contracts

- Ids, claim tokens and child tokens are drawn fresh; the generator is not modelled.
- A turn is an arbitrary outcome. That a turn started is read off the store: the turn is
  entered only after an accepted startRunning and an accepted heartbeat (`ProcessJob`), so
  statements about starts are about accepted startRunning calls. A turn left running at a
  dispatch's wait limit goes on with a dead token; its later calls are among the others'.
- `Polite` names the three things a worker never does to a job it holds: release a write job,
  fail it with a retry, start it gated and uncleared. The worker's methods guarantee it for
  each call they make; `ParkedWriteRunsOnce` and `GatedRunsApproved` assume it of the calls
  they name, `PoliteWorkersRunOnce` joins the guarantees of any number of workers to them,
  and `ParkedRunsOnce` needs no such premise.
- In a law of `StoreLaws`, `Finds` names the job as the call's own expiry leaves it, `Becomes`
  the job that the store holds and the reply shows after an accepted operation, `Rejects`
  the reason of a refused one and that it changed nothing.
- `Truthful` is what a worker's report promises: whose settlement it was, that lost is said
  only of a claim that was gone, why a job was turned away, and how an ended turn was settled.
- `Made(before, call, reply)` says that this call is the next one in the history and that
  the reply is the one `Step` gives; `Valid()` says that the history is a run and the file is
  its last store.

## Model

| member | source | states |
|---|---|---|
| `JobSweep.ExpiryTable` | lib/relay-jobs.mjs:256-311 | the sweep of one job is the expiry table, case by case: past the TTL, needs_recovery under park in flight and expired otherwise; past the lease, needs_recovery under park, and under requeue one more attempt and queued while attempts are left, failed otherwise; everything else untouched |
| `JobSweep.SweepMovesOverdue` | lib/relay-jobs.mjs:256-311 | a job changes in a sweep exactly when it is unsettled and past its TTL or lease, the cases that log an event |
| `JobSweep.SweptIsSettled` | lib/relay-jobs.mjs:256-312 | after one sweep a job is not overdue at that reading, and a second sweep leaves it alone |
| `JobSweep.ParkedOrUntouched` | lib/relay-jobs.mjs:263-296 | an in-flight park job, swept any number of times at any readings, is untouched or waits for recovery; never queued, failed or expired |
| `JobSweep.OldestSorts` | lib/relay-jobs.mjs:332-334 | the candidates for eviction are ordered by settlement time, none added or lost |
| `JobSweep.OldestIsStable` | lib/relay-jobs.mjs:332-334 | candidates settled at the same time keep their order |
| `JobSweep.CapEvictsOldest` | lib/relay-jobs.mjs:331-337 | the hard cap drops exactly min(overflow, prunable) jobs, all prunable, none settled later than a prunable one it keeps |
| `JobSweep.PruneIsConservative` | lib/relay-jobs.mjs:314-341 | the result lists retained jobs in their order, keeps every active, review and recovery job, and exceeds the cap only if no prunable job is left |
| `JobSweep.PruneIsExact` | lib/relay-jobs.mjs:314-341 | outside the retention window nothing stays; all inside stay while they are no more than the cap; otherwise max(cap, jobs not over) stay, and those over go by settlement time, then by place in the list |
| `JobSweep.PruneIdempotent` | lib/relay-jobs.mjs:314-341 | pruning again at the same reading drops nothing |
| `JobSweep.PruneSameLength` | lib/relay-jobs.mjs:315-340 | a prune that reports zero dropped jobs has changed nothing |
| `StoreSteps.Position` | lib/relay-jobs.mjs:382-384 | the first job with the id, or none |
| `StoreRuns.StepInv` | lib/relay-jobs.mjs:361-380 | every call, at any reading, keeps the structural invariant: claim exactly while claimed or running, settlement time exactly while terminal, unique ids and request ids, valid review kind, attempts below the allowance, index derived |
| `StoreRuns.RunInv` | lib/relay-jobs.mjs:392-828 | every store of every run satisfies that invariant |
| `StoreRuns.EnqueueAdds` | lib/relay-jobs.mjs:406-450 | an enqueue adds its job at the end exactly when no retained job has the request id, and otherwise changes nothing |
| `StoreRuns.OpenedIsSettled` | lib/relay-jobs.mjs:256-341 | a sweep and prune of any reachable store is a fixed point at that reading, with nothing overdue |
| `StoreRuns.UnchangedActKeeps` | lib/relay-jobs.mjs:789-812 | an operation on a valid job that reports no change left the job as it was; the review branch that writes first cannot be reached |
| `StoreRuns.UnchangedStepKeeps` | lib/relay-jobs.mjs:361-380 | a call whose sweep and operation report no change would write back exactly the loaded store |
| `JobLives.StepOnJob` | lib/relay-jobs.mjs:256-380 | to one job a call is one sweep and at most the operation addressed to it; only prunable jobs vanish, only an enqueue adds |
| `JobLives.GoneStaysGone` | lib/relay-jobs.mjs:410-442 | a job that was pruned never comes back under its id |
| `JobLives.TaskKept` | lib/relay-jobs.mjs:410-442 | a job found at two points of a run was there in between, as the same task with the same limits and policy |
| `StoreLaws.ClaimLaw` | lib/relay-jobs.mjs:455-480 | accepted exactly on a queued job, which is then claimed by this worker and token with the lease ending at now + leaseMs |
| `StoreLaws.StartLaw` | lib/relay-jobs.mjs:482-500 | accepted exactly on a job claimed under the token, which is then running |
| `StoreLaws.HeartbeatLaw` | lib/relay-jobs.mjs:502-521 | accepted exactly on a job held under the token, whose lease then ends at now + leaseMs |
| `StoreLaws.ReleaseLaw` | lib/relay-jobs.mjs:523-547 | accepted exactly on a job held under the token, which is then queued without a claim |
| `StoreLaws.CompleteLaw` | lib/relay-jobs.mjs:549-585 | accepted exactly on a job held under the token, which is then completed with this result; a repeat under the completing token is answered ok and changes nothing; else the reason |
| `StoreLaws.FailLaw` | lib/relay-jobs.mjs:587-626 | accepted exactly on a job held under the token, at the cost of an attempt: queued if and only if retry is asked and an attempt is left, otherwise failed with this error |
| `StoreLaws.CancelLaw` | lib/relay-jobs.mjs:628-651 | accepted exactly on an unsettled job, which is then cancelled |
| `StoreLaws.ParkLaw` | lib/relay-jobs.mjs:655-685 | accepted exactly on a job held under the token, which then waits for recovery with the error or the default |
| `StoreLaws.RecoverLaw` | lib/relay-jobs.mjs:688-710 | accepted exactly on a job that waits for recovery, which is then queued with no attempts and no error |
| `StoreLaws.ReviewLaw` | lib/relay-jobs.mjs:719-765 | accepted exactly on a job held under the token, claimed for predeclared and running for self-flagged, which then waits for review with reason, kind and result; else the reason, in this order |
| `StoreLaws.ResolveLaw` | lib/relay-jobs.mjs:778-828 | on a job that waits for review: rejected means failed with the note or the default; approved means queued and cleared when predeclared, completed when self-flagged; any other job is refused |
| `StoreLaws.MissingLaw` | lib/relay-jobs.mjs:455-828 | an operation on a job that is not there is refused and creates nothing |
| `StoreLaws.OthersLaw` | lib/relay-jobs.mjs:361-380 | to every other job a call is expiry, and pruning only if it is over |
| `StoreLaws.RetentionLaw` | lib/relay-jobs.mjs:314-341 | with the default settings a job that is over is gone after a day, and stays until then while there are no more than 500 jobs |
| `StoreLaws.InboxLaw` | lib/relay-jobs.mjs:889-901 | an inbox lists the first jobs of the store, in its order, that are queued and addressed to the agent, as many as there are up to the limit |
| `StoreLaws.LookLaw` | lib/relay-jobs.mjs:830-847 | looks show the store as the call leaves it; a request id finds its job or there is none |
| `StoreLaws.RegisterLaw` | lib/relay-jobs.mjs:853-875 | registering keeps the first registration time and notes this one; no other call touches an agent |
| `Fencing.FencingWindow` | lib/relay-jobs.mjs:455-685 | an accepted call that carries a token comes after the claim that drew it, with the job held under it without a break |
| `Fencing.AcceptedNeedsClaim` | lib/relay-jobs.mjs:482-765 | an accepted fenced call needs the current claim; a settling one ends it, startRunning and heartbeat keep it |
| `Fencing.SettlesOnce` | lib/relay-jobs.mjs:523-765 | at most one settling call per token is accepted in a run, and nothing with that token afterwards |
| `Fencing.DeadStaysDead` | lib/relay-jobs.mjs:455-480 | a token that was drawn and is no longer held is never held again |
| `Fencing.SettledIsFrozen` | lib/relay-jobs.mjs:256-341 | completed, failed, cancelled and expired jobs stay the same record to the end of the run, or are pruned |
| `Retries.BalanceIsSpent` | lib/relay-jobs.mjs:297-307 | the measure: claims less releases less one allowance per recovery and approval never exceed what the job has used of its attempts |
| `Retries.ClaimsBounded` | lib/relay-jobs.mjs:604-617 | claims of a retained job <= releases + allowance * (1 + recoveries + predeclared approvals), where the allowance is max(1, maxAttempts) |
| `Gates.ParkedRunsOnce` | lib/relay-jobs.mjs:256-309 | in every run, with no premise on any caller, two starts of a park job have an accepted recovery, release or failure with retry between them |
| `Gates.ParkedWriteRunsOnce` | lib/relay-worker.mjs:236-323 | two starts of a park-and-write job have an accepted recovery between them, if the calls on this job in between keep the worker's manners |
| `Gates.GatedRunsApproved` | lib/relay-worker.mjs:223-239 | a job whose task asks for review is started only after an approving resolveReview earlier in the run |
| `Gates.ApprovedCompletionRan` | lib/relay-jobs.mjs:793-806 | a job that an approval completes had been started earlier in the run |
| `Gates.ReviewEntry` | lib/relay-jobs.mjs:719-765 | a job enters review only by an accepted needsReview, predeclared from claimed and self-flagged from running |
| `Leases.HeartbeatsKeepOwnership` | lib/relay-jobs.mjs:502-521 | if every sweep reads a clock within the last heartbeat's lease and nobody cancels, expires or settles the job, the token still holds it, with that lease |
| `Dedup.IndexRefinesSearch` | lib/relay-jobs.mjs:138-157 | in every reachable store the index answers what a search of the job list would |
| `Dedup.EnqueueReply` | lib/relay-jobs.mjs:392-453 | an enqueue answers with a stored job of its request: the one found, untouched, or, when none had the request id, a new one with the caller's fields, queued, and nothing done yet |
| `Dedup.RepeatIsDeduped` | lib/relay-jobs.mjs:400-450 | while the job is retained, every later enqueue of its request answers with it and adds none, whatever happened in between |
| `RoundTrips.WaitsForOperator` | lib/relay-jobs.mjs:85-92 | in every run a job that waits for recovery or review stays the same record, never pruned, until an accepted recover or resolveReview |
| `RoundTrips.ApprovedOutput` | lib/relay-jobs.mjs:746-806 | approving a self-flagged review, however much later, completes the job with the very result that was held back |
| `RoundTrips.QueuedAgain` | lib/relay-jobs.mjs:280-309 | a claimed job that is queued again is the job that was claimed, but for one more attempt (retry or expired lease), none (release), or the resets of recovery and approval |
| `RoundTrips.ReleaseUndoesClaim` | lib/relay-jobs.mjs:455-547 | from an accepted claim to the accepted release of its token, whatever happened in between, the record is the same but for its update time |
| `RelayJobs.Memory.Load` | lib/relay-jobs.mjs:149-157 | loading keeps the jobs with an id and derives the index |
| `RelayJobs.Memory.RebuildIndex` | lib/relay-jobs.mjs:138-147 | the loop builds the index that the invariant speaks of |
| `RelayJobs.Memory.ExpireJob` | lib/relay-jobs.mjs:258-309 | expiry of one job in place, by the table, with an event exactly when the job changed |
| `RelayJobs.Memory.Expire` | lib/relay-jobs.mjs:256-309 | the in-place loop expires every job by the table, and logs nothing exactly when nothing changed |
| `RelayJobs.Memory.Evict` | lib/relay-jobs.mjs:314-341 | retention and cap, with the exact number of jobs dropped |
| `RelayJobs.Memory.Sweep` | lib/relay-jobs.mjs:256-312 | every job kept is an old one expired by the table, every one not over is kept, and the sweep reports a change exactly when the job list changed |
| `RelayJobs.RelayStore.Close` | lib/relay-jobs.mjs:369-372 | writing back only after a change leaves the same file as always writing back |
| `RelayJobs.RelayStore.Enqueue` | lib/relay-jobs.mjs:392-453 | does the always-persisting step; without a request id it throws and touches nothing |
| `RelayJobs.RelayStore.Claim` | lib/relay-jobs.mjs:455-480 | does the always-persisting step |
| `RelayJobs.RelayStore.StartRunning` | lib/relay-jobs.mjs:482-500 | does the always-persisting step |
| `RelayJobs.RelayStore.Heartbeat` | lib/relay-jobs.mjs:502-521 | does the always-persisting step |
| `RelayJobs.RelayStore.Release` | lib/relay-jobs.mjs:523-547 | does the always-persisting step |
| `RelayJobs.RelayStore.Complete` | lib/relay-jobs.mjs:549-585 | does the always-persisting step, with each refusal's reason and the idempotent repeat |
| `RelayJobs.RelayStore.Fail` | lib/relay-jobs.mjs:587-626 | does the always-persisting step, with and without retry |
| `RelayJobs.RelayStore.Cancel` | lib/relay-jobs.mjs:628-651 | does the always-persisting step |
| `RelayJobs.RelayStore.Park` | lib/relay-jobs.mjs:655-685 | does the always-persisting step |
| `RelayJobs.RelayStore.Recover` | lib/relay-jobs.mjs:688-710 | does the always-persisting step |
| `RelayJobs.RelayStore.SendToReview` | lib/relay-jobs.mjs:719-765 | needsReview: does the always-persisting step, refusals in the source's order |
| `RelayJobs.RelayStore.ResolveReview` | lib/relay-jobs.mjs:778-828 | does the always-persisting step, including the unreachable branch as written |
| `RelayJobs.RelayStore.RegisterAgent` | lib/relay-jobs.mjs:853-875 | does the always-persisting step; without an agent id it throws and touches nothing |
| `RelayJobs.RelayStore.GetJob` | lib/relay-jobs.mjs:830-832 | answers from the swept store, writing it back only if the sweep changed it |
| `RelayJobs.RelayStore.FindByRequestId` | lib/relay-jobs.mjs:834-843 | the same, through the index |
| `RelayJobs.RelayStore.List` | lib/relay-jobs.mjs:845-847 | the same, for the whole list |
| `RelayJobs.RelayStore.InboxFor` | lib/relay-jobs.mjs:889-901 | the same, for the queued jobs of an agent up to the limit |
| `WorkerHistory.SettlingAnswer` | lib/relay-worker.mjs:305-362 | a refused settling call settled nothing; an accepted one is the only settlement of its token in the run; only a complete may stand for another caller's |
| `WorkerHistory.CompletionAnswer` | lib/relay-jobs.mjs:557-560 | for a holder of the claim, complete says ok without having done it if and only if the job is retained and another call completed it under the token in between |
| `Witnesses.CompletedForIt` | lib/relay-jobs.mjs:557-560 | a concrete run in which that happens |
| `WorkerHistory.RefusedIsDead` | lib/relay-jobs.mjs:502-547 | a refused heartbeat, release or park means that the token is dead for good |
| `WorkerHistory.RefusedMeansGone` | lib/relay-worker.mjs:197-246 | any refused operation of the holder means that the token is dead, or that someone else had started the job under it |
| `WorkerHistory.RefusedWhileRunning` | lib/relay-worker.mjs:305-362 | once the job runs under the token, every refusal means that the token is dead |
| `WorkerHistory.DeadRefuses` | lib/relay-jobs.mjs:482-765 | nothing that carries a dead token is accepted at any later point of the run |
| `WorkerHistory.HandedIsPolite` | lib/relay-worker.mjs:182-240 | decisions made on the claimed snapshot are right for the stored job, whatever happened since the claim |
| `WorkerHistory.PoliteWorkersRunOnce` | lib/relay-worker.mjs:182-323 | in a run of any number of polite workers and operators, a park-and-write job starts again only after a recovery, and a gated job starts only after an approval |
| `RelayWorker.BeginTurn` | lib/relay-worker.mjs:197-246 | without a prompt, with a forbidden write or an uncleared gate, the job is failed or sent to review for the first reason that applies, and exactly then; else the turn is let through only after startRunning and a heartbeat of the full lease; lost means that the claim is gone |
| `RelayWorker.Tick` | lib/relay-worker.mjs:262-270 | a heartbeat tick that is fine means that the claim is held; one that aborts means that the token is dead |
| `RelayWorker.AwaitTurn` | lib/relay-worker.mjs:262-290 | the heartbeat timer never aborts a turn whose claim is alive, renews the lease at every tick, and settles nothing |
| `RelayWorker.FinishTurn` | lib/relay-worker.mjs:305-362 | the report is true under any interference; a turn that is not lost ends by its ending in exactly one way, told by outcome, operation and stored fields: parked or requeued, failed with its message, under review with motive and output, or completed with its output; lost means that the claim is gone |
| `RelayWorker.ProcessJob` | lib/relay-worker.mjs:182-363 | an outcome other than lost means one settlement of the kind it names by this call and none by anyone else (completed may be another caller's, exactly as CompletionAnswer says), lost means none, and that the claim was gone; a turn is entered only for a job that may run, after startRunning and heartbeat, and ends by its ending as FinishTurn says; the job shown is the stored one; with a dead token the turn is never entered |
| `RelayDispatch.ClaimAnswer` | lib/relay-worker.mjs:383-386 | a taken claim hands out the stored job under a fresh token; otherwise nothing was claimed |
| `RelayDispatch.DrainOnce` | lib/relay-worker.mjs:367-390 | runs, truthfully, the first job queued for this agent that can be claimed, with its own worker id and lease, after the claims of those before it were refused; returns nothing only if the executor is unknown or every listed job was refused |
| `RelayDispatch.CeilingKills` | lib/relay-worker.mjs:480-484 | the wait limit's park or release leaves the token dead, accepted or refused |
| `RelayDispatch.EndClaim` | lib/relay-worker.mjs:472-487 | after the wait limit's look and settlement no live claim carries the token |
| `RelayDispatch.RunUntilLimit` | lib/relay-worker.mjs:447-466 | when the waiting is over the invocation has either told its outcome truthfully, or entered the turn of a job that may run, renewed its lease at each tick and settled nothing |
| `RelayDispatch.RunOrLeave` | lib/relay-worker.mjs:447-489 | after that it settles its claim only by the wait limit's operation; the token is dead, and the job shown is the stored one |
| `RelayDispatch.Submit` | lib/relay-worker.mjs:428-434 | the request is enqueued with this task, addressee and TTL, and policy park exactly when it writes; the stored job is returned, and a new one is as asked for |
| `RelayDispatch.RunOrWatch` | lib/relay-worker.mjs:442-500 | single flight: its own claim is accounted for, from claim to settlement; without one its claim was refused, no operation of its was accepted, and it gave up only after its last poll |
| `RelayDispatch.Watch` | lib/relay-worker.mjs:490-500 | polls without touching the job; late exactly when the job is not settled, and only after all its polls |
| `RelayDispatch.DispatchAndWait` | lib/relay-worker.mjs:406-501 | enqueues the request and shows its job as stored on return; says how its own claim was settled, and no claim of its own stays alive; without a claim the job was settled already, or its claim was refused and it polled until the job was settled or all polls were used; timed out exactly when the job is unsettled; polite if its flag covers the stored task |
| `WaitLimit.ParkingIsSafe` | lib/relay-worker.mjs:480-481 | when the dispatch's task writes, no continuation with polite callers and no recovery starts the write job again |
| `WaitLimit.WaitLimitIsSafeExactly` | lib/relay-worker.mjs:472-487 | with a write job running in time under the dispatch's claim, some continuation from the wait limit starts it again without recovery, all others being polite, if and only if the dispatch's own task is read-only |
| `Witnesses.MismatchedFlagRunsTwice` | lib/relay-worker.mjs:406-487 | a concrete run: a write request, a read-only dispatch (writes allowed) deduplicated onto it with its claim, start, heartbeat and release at the limit, and the next worker's claim, start and heartbeat; no recovery |
| `FileLock.MutualExclusion` | lib/file-lock.mjs:42-88 | while no lock file of a live holder is renamed away, at most one process is in its section, and a release reads and unlinks its own file; crashes and steals of dead locks included |
| `FileLock.NeverStaleIsExclusive` | lib/file-lock.mjs:42-88 | the same whenever no lock file is ever judged stale |
| `FileLock.StealIsFatalExactly` | lib/file-lock.mjs:42-88 | after the first live steal, some continuation without a further one puts two processes in their sections if and only if the renamed file's creator was about to enter, in its section, or about to unlink with a third process able to enter |
| `FileLock.StealDropsExactly` | lib/file-lock.mjs:58-88 | after the first live steal, some continuation without a further one lets a release delete another's lock file if and only if the renamed file's creator was about to unlink |
| `FileLock.HonestJudgementsStillRace` | lib/file-lock.mjs:59-62 | for every number of processes from three up, an interleaving in which only a dead lock is ever judged stale and two processes are in their sections |
| `FileLock.HonestyIsEnoughExactly` | lib/file-lock.mjs:59-62 | such an interleaving of n processes exists if and only if n is at least three |
| `LockedStore.LockedCallsAreARun` | lib/relay-jobs.mjs:361-380 | as long as no steal was harmful, loads and write-backs under the lock leave the file and give the replies of a run of whole calls, in the order of the write-backs; crashes and harmless live steals included |
| `StaleWrites.StealOverwritesExactly` | lib/relay-jobs.mjs:361-380 | after a steal, with no harmful one after it and for some calls of the processes that have not begun, a stale store can be written back if and only if the steal was harmful: its victim had not written back, or was about to unlink with a third process able to enter |
| `StaleWrites.HarmIsLive` | lib/file-lock.mjs:56-64 | only a steal of a live holder's lock file is harmful |
| `StaleWrites.LiveStealLosesAnUpdate` | lib/relay-jobs.mjs:361-380 | a concrete interleaving with one live steal in which an enqueue that was answered is not in the file |
| `FileLock.StolenReleaseHappens` | lib/file-lock.mjs:81-84 | a concrete interleaving that ends in such a release |
| `WorkerLifecycle.PhaseNext` | lib/worker-lifecycle.mjs:264-380 | a child's record only moves none, starting, running, gone, and runs only after starting |
| `WorkerLifecycle.PhasesAscend` | lib/worker-lifecycle.mjs:264-380 | the same between any two points of any history |
| `WorkerLifecycle.NotYetRunning` | lib/worker-lifecycle.mjs:352-364 | a child that its starter kills was never recorded as running before |
| `WorkerLifecycle.KilledNeverRuns` | lib/worker-lifecycle.mjs:352-379 | nor is it afterwards, at any point of any history, if the kill's unlink worked |
| `WorkerLifecycle.KillIsFinalExactly` | lib/worker-lifecycle.mjs:84-90 | after a kill the child can still come to be recorded as running if and only if the unlink failed, which the source does not notice |
| `WorkerLifecycle.SpawnsNeedCause` | lib/worker-lifecycle.mjs:269-310 | between two recorded spawns the state was removed, or the second found the worker dead under the lock |
| `WorkerLifecycle.StateFile.EnterLocked` | lib/worker-lifecycle.mjs:264-313 | spawn exactly if nobody is recorded or the recorded worker is dead and not a young start; back off exactly from a young start; adopt exactly a live abandoned one; reuse or refuse exactly a live running one by its write flag; the record afterwards, with failing writes |
| `WorkerLifecycle.StateFile.PromoteLocked` | lib/worker-lifecycle.mjs:330-345 | starting becomes running only if the record is still this child's |
| `WorkerLifecycle.StateFile.ExpireLocked` | lib/worker-lifecycle.mjs:352-364 | the kill decision is made exactly when the starting record was still this child's, even if its unlink then fails |
| `WorkerLifecycle.StateFile.Ensure` | lib/worker-lifecycle.mjs:254-380 | returns the live worker, the young start or the adopted record as found; otherwise spawns a child, and returns no record that was there before; a killed child is running at no point of the history, before or after, if the unlink worked |
| `WorkerLifecycle.StateFile.Stop` | lib/worker-lifecycle.mjs:384-407 | afterwards the worker that was read is not recorded, if the unlink worked; a stop is reported only for one proven alive |
| `RelayOwned.RecordedIsBounded` | lib/relay-owned.mjs:64-88 | the file never exceeds the limit, from any earlier content, and lists no entry twice |
| `RelayOwned.SingleIsKept` | lib/relay-owned.mjs:64-88 | an entry recorded on its own is kept, except exactly when it was known already in the part that a trim of an overlong file drops |
| `RelayOwned.TrimKeepsNewer` | lib/relay-owned.mjs:78-84 | a trim that keeps an entry keeps everything inserted after it |
| `RelayOwned.TrimIsExact` | lib/relay-owned.mjs:78-84 | up to 2000 entries nothing is dropped, beyond that all but the last 1000 |
| `RelayOwned.InsertionOrder` | lib/relay-owned.mjs:75-77 | entries are kept in the order in which they were first seen |
| `RelayOwned.OwnedFile.Record` | lib/relay-owned.mjs:64-88 | old entries without repeats, then new ones in order, trimmed from the front; no session, an empty batch or a failed lock or write changes nothing |
| `RelayOwned.OwnedFile.EnsureFile` | lib/relay-owned.mjs:44-59 | an empty file only where there was none; a corrupt one stays; a failed lock or write changes nothing |
| `RelayOwned.OwnedFile.Read` | lib/relay-owned.mjs:27-34 | no readable data and "owns nothing" stay distinct |
| `RelayHook.ChannelKeys` | lib/relay-hook.mjs:41-59 | exactly the transitions of a job that concern the agent, with the session's dispatch and delivery marks |
| `RelayHook.CollectKeys` | lib/relay-hook.mjs:62-68 | exactly those of the whole list |
| `RelayHook.SeedKeys` | lib/relay-hook.mjs:73-75 | the set of keys of the snapshot |
| `RelayHook.Surface` | lib/relay-hook.mjs:80-91 | the new keys are exactly those not seen before, each once, and the seen-set advances by the snapshot's keys |
| `RelayHook.HasInFlightFromAgent` | lib/relay-hook.mjs:99-108 | true exactly if an unsettled job of the agent and session exists |
| `RelayHook.StopHook.SessionStart` | bin/relay-stop-hook.mjs:146-150 | everything there is at the start counts as seen, unless the write fails |
| `RelayHook.StopHook.Poll` | bin/relay-stop-hook.mjs:163-183 | it looks again only while nothing is new and work is in flight, and the seen-set stays that of all polls so far |
| `RelayHook.StopHook.Stop` | bin/relay-stop-hook.mjs:153-190 | blocks exactly with the keys that no earlier remembered poll and no seed had, although the file is written only when something is new; an absent file seeds, one that is no array counts as empty, a failed write is forgotten |
| `RelayHook.NewExactlyOnce` | lib/relay-hook.mjs:80-91 | over any polls, a key is new at poll i exactly if it is in it and in neither the seed nor an earlier poll |
| `ReviewMarker.Candidates` | lib/relay-worker.mjs:115-120 | exactly the last three lines that are not blank, bottom up |
| `ReviewMarker.SplitJoins` | lib/relay-worker.mjs:115 | splitting the output into lines and joining them gives it back |
| `ReviewMarker.JoinSplits` | lib/relay-worker.mjs:115 | and so do joining lines and splitting them again |
| `ReviewMarker.ParseReviewMarker` | lib/relay-worker.mjs:111-138 | the lowest marker among them decides; only its line, then trailing white space, is removed from the output; a negative motive does not flag, a long one is cut |

## Left out

- Persistence: JSON text, temp files and fsync, the event log's text, corrupt stores and
  `resetStore`; loading and writing back are atomic. Runs start from an empty store file.
- RelayJobs.RelayStore.Close: does not model a crash between write-back and answer.
- Aliasing: job objects are values in the list, snapshots are copies, and an update puts the
  changed value back; the index is a mathematical map, so request ids that meet prototype keys
  of a plain object are not modelled.
- Payload coercion: payloads are modelled after it, with the trimmed review motive as `gate`;
  a value that is not an object is `Malformed`.
- A `null` claim token or a claim without one, and attempt limits or times that are not
  integers.
- The sort is the library's stable sort, modelled by the function `Oldest`.
- `listAgents` is only an operation of runs (`StoreSteps.ListAgents`), without a method; it would add
  an easy member.
- RelayJobs.RelayStore.Interfere: models the others' calls as atomic steps, which is what
  each method is proved to be; calls that would draw a used name are skipped.
- Gates.ParkedWriteRunsOnce: assumes that direct users of the store API, too, do not release
  the write job or fail it with a retry; the worker's methods are proved not to. Policy park
  for write jobs comes from server.mjs:350 and `Submit`.
- RelayDispatch.DispatchAndWait: takes as inputs whether the turn finishes before the wait
  limit, how many ticks it lasts until then, and how many polls fit before the deadline;
  wall-clock time is not modelled.
- LockedStore.LockedCallsAreARun: assumes that no harmful steal happens, which the lock does
  not ensure; each process makes one call.
- RelayWorker.ProcessJob: assumes that every store call answers. In the source one may throw
  (lock timeout, unreadable store): then processJob rejects without an outcome, and a throw
  inside the heartbeat timer is not caught. The heartbeat timer is a loop of ticks before the
  turn's end; a tick does not overlap the settlement. Result payloads are opaque strings.
- RelayDispatch.DrainOnce: assumes the same of its store calls.
- ReviewMarker.ParseReviewMarker: takes as given which motive the pattern finds in a line,
  already trimmed and empty for a negative one. Its answer enters a turn's ending as `flagged`.
- RelayHook.StopHook.SessionStart: begins a new period of "each key once"; keys shown before
  it are not remembered.
- WorkerLifecycle.StateFile.Ensure: readiness, liveness (`isAliveAndOurs`), clock, write and unlink failures are
  inputs; heartbeat files, signals and the in-process `inFlight` debounce are left out.
- `runWorkerLoop`, the idle timer around `drainOnce`: time only.
- Executors, process spawning, git worktrees, the MCP server, the review CLI, the hook
  installer, `buildReason`, path and session-id sanitizing: foreign calls or presentation.
- Error texts: only the distinctions between them matter here.
