/** The wait limit of a dispatch, and exactly when it lets a write job run twice. */
module WaitLimit {
  import opened RelayTypes
  import opened JobSweep
  import opened StoreSteps
  import opened StoreRuns
  import opened JobLives
  import opened Fencing
  import opened Gates
  import opened RelayDispatch

  /** From r on: at this reading the wait limit parks or releases the claim, then all
      callers are polite and nobody recovers the job, and yet it is started again. */
  ghost predicate StartsAgain(r: Run, e: Run, id: string, token: string, write: bool, now: int) {
    && r.Valid() && e.Valid() && Grows(r, e) && |e.calls| > |r.calls|
    && e.calls[|r.calls|].now == now && e.calls[|r.calls|].op == OnJob(id, CeilingOp(write, token))
    && (forall m :: |r.calls| < m < |e.calls| ==> PoliteAt(e, m) && !RecoversAt(e, m, id))
    && exists k :: |r.calls| < k < |e.calls| && StartsAt(e, k, id)
  }

  /** A write job is running under this token, in time, and was cleared if gated. */
  ghost predicate WriteJobRuns(r: Run, id: string, token: string, now: int) {
    && r.Valid() && HeldAt(r, |r.calls|, id, token)
    && var j := JobAt(r, |r.calls|, id).value;
       j.state.Running? && ParkedWrite(j) && !Overdue(j, now) && (j.payload.Gated() ==> j.cleared)
  }

  // ---- a writing dispatch never does that ----------------------------------

  /** Parked or refused, the job is past its start and stays so. */
  lemma ParkingIsSafe(r: Run, e: Run, id: string, token: string, now: int)
    requires WriteJobRuns(r, id, token, now)
    ensures !StartsAgain(r, e, id, token, true, now)
  {
    if StartsAgain(r, e, id, token, true, now) {
      var n := |r.calls|;
      var k :| n < k < |e.calls| && StartsAt(e, k, id);
      assert JobAt(e, n, id) == JobAt(r, n, id);
      NoStartUnlessReopened(e, n, k, id);
      var m :| n <= m < k && ReopensAt(e, m, id);
      if n < m {
        PoliteKeepsClosed(e, n, m, id);
      }
    }
  }

  // ---- a read-only dispatch may --------------------------------------------

  /** The call finds the job in time and is accepted, or only reads it. */
  predicate Playable(j: Job, c: Call) {
    && !Overdue(j, c.now) && !j.state.Prunable()
    && (c.op == GetJob(j.id) || (c.op.OnJob? && c.op.id == j.id && Act(j, c.now, c.op.act).changed))
  }

  function Played(j: Job, c: Call): Job {
    if c.op.OnJob? then Act(j, c.now, c.op.act).job else j
  }

  /** Since call n, every operation on the job was accepted. */
  ghost predicate AllAccepted(r: Run, n: nat, id: string)
    requires r.Shaped()
  {
    forall k :: n <= k < |r.calls| && r.calls[k].op.OnJob? && r.calls[k].op.id == id ==> Acts(r, k, id)
  }

  lemma OpenedShrinks(s: StoreData, now: int, opts: Opts)
    ensures |Opened(s, now, opts).jobs| <= |s.jobs|
  {
    FilterMembers(s.jobs, HasId);
    PruneSameLength(SweepJobs(Filter(s.jobs, HasId), now), now, opts);
  }

  /** The run with one more such call. */
  lemma Play(r: Run, n: nat, j: Job, c: Call) returns (e: Run)
    requires r.Valid() && n <= |r.calls| && Possible(c.op, r.names[|r.calls|])
    requires JobAt(r, |r.calls|, j.id) == Some(j) && Playable(j, c) && AllAccepted(r, n, j.id)
    ensures e.Valid() && Grows(r, e) && e.calls == r.calls + [c]
    ensures e.names[|e.calls|] == r.names[|r.calls|] + Mints(c.op)
    ensures JobAt(e, |e.calls|, j.id) == Some(Played(j, c)) && Played(j, c).id == j.id
    ensures AllAccepted(e, n, j.id)
    ensures |e.stores[|e.calls|].jobs| <= |r.stores[|r.calls|].jobs|
  {
    e := r.Extend(c);
    OpenedShrinks(r.stores[|r.calls|], c.now, c.opts);
    ExtendValid(r, c);
    SweepMovesOverdue(j, c.now);
    JobNext(e, |r.calls|, j.id);
    if c.op.OnJob? {
      JobActs(e, |r.calls|, j.id);
      ActIdentity(j, c.now, c.op.act);
    }
  }

  predicate PlayableThree(j: Job, a: Call, b: Call, c: Call) {
    Playable(j, a) && Playable(Played(j, a), b) && Playable(Played(Played(j, a), b), c)
  }

  function PlayedThree(j: Job, a: Call, b: Call, c: Call): Job {
    Played(Played(Played(j, a), b), c)
  }

  lemma PlayThree(r: Run, n: nat, j: Job, a: Call, b: Call, c: Call) returns (e: Run)
    requires r.Valid() && n <= |r.calls| && JobAt(r, |r.calls|, j.id) == Some(j) && AllAccepted(r, n, j.id)
    requires Possible(a.op, r.names[|r.calls|]) && Possible(b.op, r.names[|r.calls|] + Mints(a.op))
    requires PlayableThree(j, a, b, c) && Mints(c.op) == {} && !c.op.Enqueue? && !c.op.Register?
    ensures e.Valid() && Grows(r, e) && e.calls == r.calls + [a, b, c] && AllAccepted(e, n, j.id)
    ensures e.names[|e.calls|] == r.names[|r.calls|] + Mints(a.op) + Mints(b.op)
    ensures JobAt(e, |e.calls|, j.id) == Some(PlayedThree(j, a, b, c))
    ensures |e.stores[|e.calls|].jobs| <= |r.stores[|r.calls|].jobs|
  {
    var e1 := Play(r, n, j, a);
    var e2 := Play(e1, n, Played(j, a), b);
    e := Play(e2, n, Played(Played(j, a), b), c);
  }

  function ToJob(caller: nat, id: string, act: JobOp, now: int): Call {
    Call(caller, now, DEFAULT_OPTS, OnJob(id, act))
  }

  lemma ReleasedJobRestarts(j: Job, now: int, token: string, second: string)
    requires j.state.Running? && j.Holds(token) && !Overdue(j, now)
    ensures PlayableThree(j, ToJob(0, j.id, ReleaseOp(token), now), ToJob(0, j.id, ClaimOp(None, None, second), now),
                          ToJob(0, j.id, StartOp(second), now))
  {
  }

  /** The released job is claimed and started by the next worker. */
  lemma ReleaseRestarts(r: Run, j: Job, token: string, second: string, now: int) returns (e: Run)
    requires r.Valid() && JobAt(r, |r.calls|, j.id) == Some(j)
    requires j.state.Running? && j.Holds(token) && !Overdue(j, now)
    requires second != "" && second !in r.names[|r.calls|]
    ensures e.Valid() && Grows(r, e)
    ensures e.calls == r.calls + [ToJob(0, j.id, ReleaseOp(token), now),
                                  ToJob(0, j.id, ClaimOp(None, None, second), now),
                                  ToJob(0, j.id, StartOp(second), now)]
    ensures StartsAt(e, |r.calls| + 2, j.id)
  {
    ReleasedJobRestarts(j, now, token, second);
    e := PlayThree(r, |r.calls|, j, ToJob(0, j.id, ReleaseOp(token), now),
                   ToJob(0, j.id, ClaimOp(None, None, second), now), ToJob(0, j.id, StartOp(second), now));
    assert e.calls[|r.calls| + 2] == ToJob(0, j.id, StartOp(second), now);
  }

  lemma LaterStartIsPolite(e: Run, n: nat, k: nat, id: string)
    requires e.Valid() && n <= k < |e.calls| && StartsAt(e, k, id)
    requires JobAt(e, n, id).Some? && (JobAt(e, n, id).value.payload.Gated() ==> JobAt(e, n, id).value.cleared)
    ensures PoliteAt(e, k)
  {
    JobActs(e, k, id);
    TaskKept(e, n, k, id);
  }

  lemma ReleasingIsUnsafe(r: Run, id: string, token: string, now: int) returns (e: Run)
    requires WriteJobRuns(r, id, token, now)
    ensures StartsAgain(r, e, id, token, false, now)
  {
    var n := |r.calls|;
    var second := FreshName(r.names[n], "t");
    FoundIsNamed(r, n, id);
    e := ReleaseRestarts(r, JobAt(r, n, id).value, token, second, now);
    assert e.calls[n + 1] == ToJob(0, id, ClaimOp(None, None, second), now);
    assert e.calls[n + 2] == ToJob(0, id, StartOp(second), now);
    assert JobAt(e, n, id) == JobAt(r, n, id);
    LaterStartIsPolite(e, n, n + 2, id);
  }

  /** Exactly when the wait limit lets a write job run twice: with a write job running
      in time under the dispatch's claim, some run goes on from the limit to another
      start, all others being polite and nobody recovering the job, if and only if the
      dispatch's own task is read-only. */
  lemma WaitLimitIsSafeExactly(r: Run, id: string, token: string, write: bool, now: int)
    requires WriteJobRuns(r, id, token, now)
    ensures (exists e :: StartsAgain(r, e, id, token, write, now)) <==> !write
  {
    if write {
      forall e ensures !StartsAgain(r, e, id, token, write, now) {
        ParkingIsSafe(r, e, id, token, now);
      }
    } else {
      var e := ReleasingIsUnsafe(r, id, token, now);
    }
  }
}
