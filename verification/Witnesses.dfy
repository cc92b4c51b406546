/** Concrete runs: a dispatch under which a write job runs twice, and a worker whose
    "ok" was another caller's completion. */
module Witnesses {
  import opened RelayTypes
  import opened JobSweep
  import opened StoreSteps
  import opened StoreRuns
  import opened JobLives
  import opened Fencing
  import opened Gates
  import opened Dedup
  import opened WorkerHistory
  import opened RelayDispatch
  import opened WaitLimit

  const JOB := "job"

  /** What server.mjs enqueues for a task that writes. */
  const WRITE_REQUEST :=
    Enqueue("request", Some("codex"), Some("claude"), Task("prompt", true, ""), None, None, Policy.Park, JOB)

  lemma EnqueuedAlone() returns (r: Run)
    ensures r.Valid() && r.calls == [Call(0, 0, DEFAULT_OPTS, WRITE_REQUEST)] && r.names[1] == {JOB}
    ensures JobAt(r, 1, JOB) == Some(NewJob(WRITE_REQUEST, 0)) && |r.stores[1].jobs| == 1
  {
    var c := Call(0, 0, DEFAULT_OPTS, WRITE_REQUEST);
    r := START.Extend(c);
    ExtendValid(START, c);
    FirstEnqueue(c);
    FindAppended([], NewJob(WRITE_REQUEST, 0), JOB);
  }

  /** The run with one more enqueue of the job's request. */
  lemma Repeat(r: Run, n: nat, j: Job, c: Call) returns (e: Run)
    requires r.Valid() && n <= |r.calls| && Possible(c.op, r.names[|r.calls|]) && AllAccepted(r, n, j.id)
    requires JobAt(r, |r.calls|, j.id) == Some(j) && !Overdue(j, c.now) && !j.state.Prunable()
    requires c.op.Enqueue? && c.op.requestId == j.requestId
    ensures e.Valid() && Grows(r, e) && e.calls == r.calls + [c]
    ensures e.names[|e.calls|] == r.names[|r.calls|] + Mints(c.op)
    ensures e.results[|r.calls|].reply == Enqueued(j.id, true, j) && !e.results[|r.calls|].changed
    ensures JobAt(e, |e.calls|, j.id) == Some(j) && AllAccepted(e, n, j.id)
  {
    var k := |r.calls|;
    e := r.Extend(c);
    ExtendValid(r, c);
    SweepMovesOverdue(j, c.now);
    RunInv(r, k);
    FindOpened(r.stores[k], c.now, c.opts, r.names[k], j.id);
    JobNext(e, k, j.id);
    RequestIsUnique(e, k, j.id, j.requestId);
    EnqueueReply(e, k, j.requestId);
  }

  // ---- a write job that runs twice -----------------------------------------

  const LEASE_MS := 120000

  /** What caller 1 calls in dispatchAndWait with a read-only task, writes allowed:
      enqueue, claim, start and heartbeat of the stored job, and at the wait limit a
      look, the release and the last look. */
  const READ_REQUEST :=
    Call(1, 0, DEFAULT_OPTS,
         Enqueue("request", Some("codex"), None, Task("prompt", false, ""), None, None, Requeue, "unused"))

  function Worked(caller: nat, worker: string, token: string): seq<Call> {
    [ToJob(caller, JOB, ClaimOp(Some(worker), Some(LEASE_MS), token), 0), ToJob(caller, JOB, StartOp(token), 0),
     ToJob(caller, JOB, HeartbeatOp(token, Some(LEASE_MS)), 0)]
  }

  const LIMIT_REACHED :=
    [Call(1, 0, DEFAULT_OPTS, GetJob(JOB)), ToJob(1, JOB, CeilingOp(false, "t1"), 0),
     Call(1, 0, DEFAULT_OPTS, GetJob(JOB))]

  lemma WorkIsPlayable(j: Job, caller: nat, worker: string, token: string)
    requires j.id == JOB && j.state.Queued? && !Overdue(j, 0)
    ensures var calls := Worked(caller, worker, token); PlayableThree(j, calls[0], calls[1], calls[2])
    ensures var calls := Worked(caller, worker, token); var k := PlayedThree(j, calls[0], calls[1], calls[2]);
            k.id == JOB && k.state.Running? && k.Holds(token) && !Overdue(k, 0)
  {
  }

  /** Claim, start and heartbeat by one worker. */
  lemma Work(r: Run, n: nat, j: Job, caller: nat, worker: string, token: string) returns (e: Run)
    requires r.Valid() && n <= |r.calls| && AllAccepted(r, n, JOB) && j.id == JOB
    requires JobAt(r, |r.calls|, JOB) == Some(j) && j.state.Queued? && !Overdue(j, 0)
    requires token != "" && token !in r.names[|r.calls|]
    ensures e.Valid() && Grows(r, e) && e.calls == r.calls + Worked(caller, worker, token) && AllAccepted(e, n, JOB)
    ensures e.names[|e.calls|] == r.names[|r.calls|] + {token}
    ensures JobAt(e, |e.calls|, JOB).Some?
    ensures var k := JobAt(e, |e.calls|, JOB).value; k.id == JOB && k.state.Running? && k.Holds(token) && !Overdue(k, 0)
    ensures |e.stores[|e.calls|].jobs| <= |r.stores[|r.calls|].jobs|
  {
    var calls := Worked(caller, worker, token);
    WorkIsPlayable(j, caller, worker, token);
    e := PlayThree(r, n, j, calls[0], calls[1], calls[2]);
  }

  /** The wait limit of the read-only dispatch releases the running write job. */
  lemma Limit(r: Run, n: nat, j: Job) returns (e: Run)
    requires r.Valid() && n <= |r.calls| && AllAccepted(r, n, JOB) && j.id == JOB
    requires JobAt(r, |r.calls|, JOB) == Some(j) && j.state.Running? && j.Holds("t1") && !Overdue(j, 0)
    ensures e.Valid() && Grows(r, e) && e.calls == r.calls + LIMIT_REACHED && AllAccepted(e, n, JOB)
    ensures e.names[|e.calls|] == r.names[|r.calls|]
    ensures JobAt(e, |e.calls|, JOB).Some?
    ensures var k := JobAt(e, |e.calls|, JOB).value; k.id == JOB && k.state.Queued? && !Overdue(k, 0)
  {
    assert PlayableThree(j, LIMIT_REACHED[0], LIMIT_REACHED[1], LIMIT_REACHED[2]);
    e := PlayThree(r, n, j, LIMIT_REACHED[0], LIMIT_REACHED[1], LIMIT_REACHED[2]);
  }

  const DISPATCHED :=
    [Call(0, 0, DEFAULT_OPTS, WRITE_REQUEST), READ_REQUEST] + Worked(1, "dispatcher", "t1") + LIMIT_REACHED

  lemma ReleasedByDispatch() returns (r: Run)
    ensures r.Valid() && r.calls == DISPATCHED && AllAccepted(r, 0, JOB) && r.names[8] == {JOB, "unused", "t1"}
    ensures r.results[1].reply.Enqueued? && r.results[1].reply.deduped && r.results[1].reply.jobId == JOB
    ensures JobAt(r, 2, JOB) == Some(NewJob(WRITE_REQUEST, 0))
    ensures JobAt(r, 8, JOB).Some?
    ensures var k := JobAt(r, 8, JOB).value; k.id == JOB && k.state.Queued? && !Overdue(k, 0)
  {
    var j := NewJob(WRITE_REQUEST, 0);
    var r1 := EnqueuedAlone();
    var r2 := Repeat(r1, 0, j, READ_REQUEST);
    var r5 := Work(r2, 0, j, 1, "dispatcher", "t1");
    r := Limit(r5, 0, JobAt(r5, 5, JOB).value);
    assert r.results[1] == r2.results[1] && r.stores[2] == r2.stores[2];
  }

  lemma ScriptStarts(r: Run)
    requires r.Shaped() && r.calls == DISPATCHED + Worked(2, "worker", "t2") && AllAccepted(r, 0, JOB)
    ensures StartsAt(r, 3, JOB) && Acts(r, 4, JOB) && StartsAt(r, 9, JOB) && Acts(r, 10, JOB)
    ensures forall m :: 0 <= m < |r.calls| ==> !RecoversAt(r, m, JOB)
  {
    assert r.calls[3] == Worked(1, "dispatcher", "t1")[1] && r.calls[4] == Worked(1, "dispatcher", "t1")[2];
    assert r.calls[9] == Worked(2, "worker", "t2")[1] && r.calls[10] == Worked(2, "worker", "t2")[2];
  }

  /** A write job is enqueued; a read-only dispatch of the same request is deduplicated
      onto it, runs it and, at its wait limit, releases it; the next worker runs it
      again, and nobody has recovered it. */
  lemma MismatchedFlagRunsTwice() returns (r: Run)
    ensures r.Valid() && r.calls == DISPATCHED + Worked(2, "worker", "t2")
    ensures r.results[1].reply.Enqueued? && r.results[1].reply.deduped && r.results[1].reply.jobId == JOB
    ensures JobAt(r, 2, JOB).Some? && ParkedWrite(JobAt(r, 2, JOB).value)
    ensures StartsAt(r, 3, JOB) && Acts(r, 4, JOB) && StartsAt(r, 9, JOB) && Acts(r, 10, JOB)
    ensures forall m :: 0 <= m < |r.calls| ==> !RecoversAt(r, m, JOB)
  {
    var r8 := ReleasedByDispatch();
    r := Work(r8, 0, JobAt(r8, 8, JOB).value, 2, "worker", "t2");
    ScriptStarts(r);
    assert r.results[1] == r8.results[1] && r.stores[2] == r8.stores[2];
  }

  // ---- an "ok" that another caller earned ----------------------------------

  const DONE := CompleteOp("t1", None)

  lemma WorkedAlone() returns (r: Run)
    ensures r.Valid() && |r.calls| == 4 && HeldAt(r, 4, JOB, "t1") && AllAccepted(r, 0, JOB) && |r.stores[4].jobs| <= 1
    ensures var j := JobAt(r, 4, JOB).value; j.id == JOB && j.state.Running? && !Overdue(j, 0)
  {
    var alone := EnqueuedAlone();
    r := Work(alone, 0, NewJob(WRITE_REQUEST, 0), 1, "dispatcher", "t1");
  }

  /** A job in a store that is not too full is kept while its retention lasts. */
  lemma Retained(s: StoreData, j: Job, now: int, opts: Opts, names: set<string>)
    requires Inv(s, names) && Find(s.jobs, j.id) == Some(j) && SweepJob(j, now) == j
    requires |s.jobs| <= opts.maxJobs && WithinRetention(now, opts.retentionMs).Passes(j)
    ensures Find(Opened(s, now, opts).jobs, j.id) == Some(j)
  {
    var swept := SweepJobs(s.jobs, now);
    OpenedInv(s, now, opts, names);
    SweptFind(s.jobs, now, j.id);
    FindSpec(swept, j.id);
    FilterMembers(swept, WithinRetention(now, opts.retentionMs));
    FindMember(Opened(s, now, opts).jobs, j);
  }

  lemma CompletedByOther(r: Run) returns (e: Run)
    requires r.Valid() && |r.calls| == 4 && HeldAt(r, 4, JOB, "t1") && AllAccepted(r, 0, JOB) && |r.stores[4].jobs| <= 1
    requires var j := JobAt(r, 4, JOB).value; j.id == JOB && j.state.Running? && !Overdue(j, 0)
    ensures e.Valid() && Grows(r, e) && e.calls == r.calls + [ToJob(2, JOB, DONE, 0)] && SettlesAt(e, 4, "t1")
    ensures |e.stores[5].jobs| <= 1 && JobAt(e, 5, JOB).Some?
    ensures var k := JobAt(e, 5, JOB).value; CompletedBy(k, "t1") && k.id == JOB && k.terminalAt == Some(0)
  {
    e := Play(r, 0, JobAt(r, 4, JOB).value, ToJob(2, JOB, DONE, 0));
    assert e.calls[4] == ToJob(2, JOB, DONE, 0);
  }

  /** A worker holds its claim; another caller completes the job under the same token;
      then the worker's own complete is answered ok and changes nothing. */
  lemma CompletedForIt() returns (before: Run, later: Run)
    ensures AskedLast(before, later, 1, JOB, DONE) && HeldAt(before, |before.calls|, JOB, "t1")
    ensures var last := |later.calls| - 1; later.results[last].reply.Accepted? && !Acts(later, last, JOB)
  {
    before := WorkedAlone();
    var done := CompletedByOther(before);
    var mine := ToJob(1, JOB, DONE, 0);
    later := done.Extend(mine);
    ExtendValid(done, mine);
    RunInv(done, 5);
    Retained(done.stores[5], JobAt(done, 5, JOB).value, 0, DEFAULT_OPTS, done.names[5]);
    StillThere(done, later);
    assert SettlesAt(later, 4, "t1") && CompletedBetween(later, 4, 5, "t1");
    CompletionAnswer(before, later, 1, JOB, "t1", None);
  }

  lemma StillThere(done: Run, later: Run)
    requires done.Valid() && |done.calls| == 5 && later.Valid() && later == done.Extend(ToJob(1, JOB, DONE, 0))
    requires Find(Opened(done.stores[5], 0, DEFAULT_OPTS).jobs, JOB).Some?
    ensures JobAt(later, 6, JOB).Some?
  {
    assert later.StepAt(5);
    RunInv(done, 5);
    OpenedInv(done.stores[5], 0, DEFAULT_OPTS, done.names[5]);
    FindApplied(Opened(done.stores[5], 0, DEFAULT_OPTS), 0, OnJob(JOB, DONE), done.names[5], JOB);
  }
}
