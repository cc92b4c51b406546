/** What the worker protocol buys over whole runs: a parked write job never runs
    twice without a recovery, and a gated job never runs without an approval. */
module Gates {
  import opened RelayTypes
  import opened JobSweep
  import opened StoreSteps
  import opened StoreRuns
  import opened JobLives
  import opened Fencing

  /** What a worker never does to a job it holds: release a write job, fail with a
      retry, or start a gated job that was not cleared. RelayWorker's methods
      guarantee this for each call they make. */
  predicate Polite(j: Job, act: JobOp) {
    match act
    case ReleaseOp(token) => j.Holds(token) ==> !j.payload.Writes()
    case FailOp(token, _, retry) => j.Holds(token) ==> !retry
    case StartOp(token) => j.Holds(token) ==> !j.payload.Gated() || j.cleared
    case _ => true
  }

  ghost predicate PoliteAt(r: Run, i: nat)
    requires r.Shaped() && i < |r.calls|
  {
    && r.calls[i].op.OnJob?
    && JobAt(r, i, r.calls[i].op.id).Some?
    ==> Polite(JobAt(r, i, r.calls[i].op.id).value, r.calls[i].op.act)
  }

  /** Call i is an accepted startRunning, recover or approving resolveReview. */
  ghost predicate StartsAt(r: Run, i: nat, id: string)
    requires r.Shaped() && i < |r.calls|
  {
    Acts(r, i, id) && r.calls[i].op.act.StartOp?
  }

  ghost predicate RecoversAt(r: Run, i: nat, id: string)
    requires r.Shaped() && i < |r.calls|
  {
    Acts(r, i, id) && r.calls[i].op.act.RecoverOp?
  }

  ghost predicate ApprovesAt(r: Run, i: nat, id: string)
    requires r.Shaped() && i < |r.calls|
  {
    Acts(r, i, id) && r.calls[i].op.act.ResolveOp? && r.calls[i].op.act.approve
  }

  /** Call i is an accepted release or failure with retry, or recover. */
  ghost predicate ReleasesAt(r: Run, i: nat, id: string)
    requires r.Shaped() && i < |r.calls|
  {
    Acts(r, i, id) && (r.calls[i].op.act.ReleaseOp? || (r.calls[i].op.act.FailOp? && r.calls[i].op.act.retry))
  }

  ghost predicate ReopensAt(r: Run, i: nat, id: string)
    requires r.Shaped() && i < |r.calls|
  {
    RecoversAt(r, i, id) || ReleasesAt(r, i, id)
  }

  // ---- parked jobs ---------------------------------------------------------

  /** The job's turn has been started and it has not gone back to the queue. */
  predicate PastStart(j: Job) {
    j.policy.Park?
    && (j.state.Running? || j.state.Prunable() || j.state.NeedsRecovery?
        || (j.state.NeedsReview? && j.reviewKind == Some(SelfFlagged)))
  }

  predicate ParkedWrite(j: Job) {
    j.policy.Park? && j.payload.Writes()
  }

  lemma SweepPastStart(j: Job, now: int)
    requires PastStart(j)
    ensures PastStart(SweepJob(j, now))
  {
  }

  lemma ActPastStart(j: Job, now: int, act: JobOp)
    requires PastStart(j)
             && (Act(j, now, act).changed ==> !act.RecoverOp? && !act.ReleaseOp? && !(act.FailOp? && act.retry))
    ensures PastStart(Act(j, now, act).job)
    ensures act.StartOp? ==> !Act(j, now, act).changed
  {
  }

  lemma PastStartNext(r: Run, i: nat, id: string)
    requires r.Valid() && i < |r.calls| && JobAt(r, i, id).Some? && PastStart(JobAt(r, i, id).value)
    requires !ReopensAt(r, i, id)
    ensures JobAt(r, i + 1, id).Some? ==> PastStart(JobAt(r, i + 1, id).value)
    ensures !StartsAt(r, i, id)
  {
    var j := JobAt(r, i, id).value;
    var c := r.calls[i];
    SweepPastStart(j, c.now);
    FoundIsNamed(r, i, id);
    JobNext(r, i, id);
    if c.op.OnJob? && c.op.id == id {
      JobActs(r, i, id);
      if JobAt(r, i + 1, id).Some? {
        ActPastStart(SweepJob(j, c.now), c.now, c.op.act);
      }
    }
  }

  lemma {:induction false} StaysPastStart(r: Run, i: nat, k: nat, id: string)
    requires r.Valid() && i <= k <= |r.calls| && JobAt(r, i, id).Some? && PastStart(JobAt(r, i, id).value)
    requires forall m :: i <= m < k ==> !ReopensAt(r, m, id)
    ensures JobAt(r, k, id).Some? ==> PastStart(JobAt(r, k, id).value)
  {
    if i < k {
      StaysPastStart(r, i, k - 1, id);
      if JobAt(r, k - 1, id).Some? {
        PastStartNext(r, k - 1, id);
      } else {
        FoundIsNamed(r, i, id);
        NamesGrow(r, i, k - 1);
        GoneStaysGone(r, k - 1, k, id);
      }
    }
  }

  lemma StartIsPastStart(r: Run, i: nat, id: string)
    requires r.Valid() && i < |r.calls| && StartsAt(r, i, id)
    requires JobAt(r, i, id).Some? && JobAt(r, i, id).value.policy.Park?
    ensures JobAt(r, i + 1, id).Some? && PastStart(JobAt(r, i + 1, id).value)
  {
    JobActs(r, i, id);
    TaskKept(r, i, i + 1, id);
  }

  /** From a point past its start on, no start of the job is accepted unless someone
      reopened it. */
  lemma NoStartUnlessReopened(r: Run, i: nat, k: nat, id: string)
    requires r.Valid() && i <= k < |r.calls| && JobAt(r, i, id).Some? && PastStart(JobAt(r, i, id).value)
    requires StartsAt(r, k, id)
    ensures exists m :: i <= m < k && ReopensAt(r, m, id)
  {
    if forall m :: i <= m < k ==> !ReopensAt(r, m, id) {
      StaysPastStart(r, i, k, id);
      JobActs(r, k, id);
      PastStartNext(r, k, id);
    }
  }

  /** In every run at all, two starts of a job stored with policy park have an accepted
      recovery, release or failure with retry between them: neither time nor the
      sweep ever brings a started one back. */
  lemma ParkedRunsOnce(r: Run, i: nat, k: nat, id: string)
    requires r.Valid() && i < k < |r.calls| && StartsAt(r, i, id) && StartsAt(r, k, id)
    requires JobAt(r, i, id).Some? && JobAt(r, i, id).value.policy.Park?
    ensures exists m :: i < m < k && ReopensAt(r, m, id)
  {
    StartIsPastStart(r, i, id);
    NoStartUnlessReopened(r, i + 1, k, id);
  }

  /** A polite caller neither releases a write job nor fails it with a retry. */
  lemma PoliteKeepsClosed(r: Run, i: nat, m: nat, id: string)
    requires r.Valid() && i <= m < |r.calls| && JobAt(r, i, id).Some? && JobAt(r, i, id).value.payload.Writes()
    requires PoliteAt(r, m)
    ensures !ReleasesAt(r, m, id)
  {
    if ReleasesAt(r, m, id) {
      AcceptedNeedsClaim(r, m, r.calls[m].op.act.token);
      TaskKept(r, i, m, id);
    }
  }

  /** So two starts of a write job stored with policy park have an accepted recovery
      between them, if the calls on this job in between are polite. */
  lemma ParkedWriteRunsOnce(r: Run, i: nat, k: nat, id: string)
    requires r.Valid() && i < k < |r.calls| && StartsAt(r, i, id) && StartsAt(r, k, id)
    requires JobAt(r, i, id).Some? && ParkedWrite(JobAt(r, i, id).value)
    requires forall m :: i < m < k && r.calls[m].op.OnJob? && r.calls[m].op.id == id ==> PoliteAt(r, m)
    ensures exists m :: i < m < k && RecoversAt(r, m, id)
  {
    ParkedRunsOnce(r, i, k, id);
    var m :| i < m < k && ReopensAt(r, m, id);
    PoliteKeepsClosed(r, i, m, id);
  }

  // ---- the human review gate -----------------------------------------------

  lemma ClearedNext(j: Job, c: Call)
    ensures Lived(j, c).cleared && !j.cleared ==>
              c.op.OnJob? && c.op.id == j.id && c.op.act.ResolveOp? && c.op.act.approve
              && Act(SweepJob(j, c.now), c.now, c.op.act).changed
  {
    SweptSameTask(j, c.now);
    assert SweepJob(j, c.now).cleared == j.cleared;
  }

  /** A cleared job was approved earlier in the run. */
  lemma {:induction false} ClearedWasApproved(r: Run, i: nat, id: string)
    requires r.Valid() && i <= |r.calls| && JobAt(r, i, id).Some? && JobAt(r, i, id).value.cleared
    ensures exists a :: 0 <= a < i && ApprovesAt(r, a, id)
  {
    if i > 0 {
      JobNext(r, i - 1, id);
      var before := JobAt(r, i - 1, id);
      if before.Some? && before.value.cleared {
        ClearedWasApproved(r, i - 1, id);
      } else if before.Some? {
        FoundIsNamed(r, i - 1, id);
        ClearedNext(before.value, r.calls[i - 1]);
        JobActs(r, i - 1, id);
        assert ApprovesAt(r, i - 1, id);
      }
    }
  }

  /** No polite caller starts a job whose task asks for review unless a human
      approved it earlier in the run. */
  lemma GatedRunsApproved(r: Run, i: nat, id: string)
    requires r.Valid() && i < |r.calls| && StartsAt(r, i, id) && PoliteAt(r, i)
    requires JobAt(r, i, id).Some? && JobAt(r, i, id).value.payload.Gated()
    ensures exists a :: 0 <= a < i && ApprovesAt(r, a, id)
  {
    AcceptedNeedsClaim(r, i, r.calls[i].op.act.token);
    ClearedWasApproved(r, i, id);
  }

  /** Running, or holding output for a self-flagged review. */
  predicate HasRun(j: Job) {
    j.state.Running? || (j.state.NeedsReview? && j.reviewKind == Some(SelfFlagged))
  }

  lemma HasRunNext(j: Job, c: Call)
    requires HasRun(Lived(j, c))
    ensures HasRun(j)
            || (c.op.OnJob? && c.op.id == j.id && c.op.act.StartOp? && Act(SweepJob(j, c.now), c.now, c.op.act).changed)
  {
    assert HasRun(SweepJob(j, c.now)) ==> HasRun(j);
    if c.op.OnJob? && c.op.id == j.id {
      ActHasRun(SweepJob(j, c.now), c.now, c.op.act);
    }
  }

  lemma ActHasRun(j: Job, now: int, act: JobOp)
    requires HasRun(Act(j, now, act).job)
    ensures HasRun(j) || (act.StartOp? && Act(j, now, act).changed)
  {
  }

  lemma HasRunBefore(r: Run, i: nat, id: string)
    requires r.Valid() && i < |r.calls| && JobAt(r, i + 1, id).Some? && HasRun(JobAt(r, i + 1, id).value)
    ensures StartsAt(r, i, id) || (JobAt(r, i, id).Some? && HasRun(JobAt(r, i, id).value))
  {
    JobNext(r, i, id);
    if JobAt(r, i, id).Some? {
      FoundIsNamed(r, i, id);
      HasRunNext(JobAt(r, i, id).value, r.calls[i]);
      if !HasRun(JobAt(r, i, id).value) {
        JobActs(r, i, id);
      }
    }
  }

  lemma {:induction false} HasRunWasStarted(r: Run, i: nat, id: string)
    requires r.Valid() && i <= |r.calls| && JobAt(r, i, id).Some? && HasRun(JobAt(r, i, id).value)
    ensures exists s :: 0 <= s < i && StartsAt(r, s, id)
  {
    if i > 0 {
      HasRunBefore(r, i - 1, id);
      if !StartsAt(r, i - 1, id) {
        HasRunWasStarted(r, i - 1, id);
      }
    }
  }

  /** A job that an approval completes had been running earlier in the run. */
  lemma ApprovedCompletionRan(r: Run, i: nat, id: string)
    requires r.Valid() && i < |r.calls| && ApprovesAt(r, i, id)
    requires JobAt(r, i + 1, id).Some? && JobAt(r, i + 1, id).value.state.Completed?
    ensures exists s :: 0 <= s < i && StartsAt(r, s, id)
  {
    JobActs(r, i, id);
    assert HasRun(JobAt(r, i, id).value);
    HasRunWasStarted(r, i, id);
  }

  lemma ReviewNext(j: Job, c: Call)
    requires JobOk(j) && !j.state.NeedsReview? && Lived(j, c).state.NeedsReview?
    ensures c.op.OnJob? && c.op.id == j.id && c.op.act.ReviewOp? && Act(SweepJob(j, c.now), c.now, c.op.act).changed
    ensures SweepJob(j, c.now) == j
    ensures var k := Lived(j, c);
            (k.reviewKind == Some(Predeclared) && j.state.Claimed?)
            || (k.reviewKind == Some(SelfFlagged) && j.state.Running?)
  {
    SweepJobOk(j, c.now);
    assert !SweepJob(j, c.now).state.NeedsReview?;
    if c.op.OnJob? && c.op.id == j.id {
      ActToReview(SweepJob(j, c.now), c.now, c.op.act);
    }
  }

  lemma ActToReview(j: Job, now: int, act: JobOp)
    requires JobOk(j) && !j.state.NeedsReview? && Act(j, now, act).job.state.NeedsReview?
    ensures act.ReviewOp? && Act(j, now, act).changed && j.claim.Some?
    ensures var k := Act(j, now, act).job;
            (k.reviewKind == Some(Predeclared) && j.state.Claimed?)
            || (k.reviewKind == Some(SelfFlagged) && j.state.Running?)
  {
  }

  /** A job enters review only by an accepted needsReview: predeclared from claimed
      (its turn has not run), self-flagged from running. */
  lemma ReviewEntry(r: Run, i: nat, id: string)
    requires r.Valid() && i < |r.calls|
    requires JobAt(r, i + 1, id).Some? && JobAt(r, i + 1, id).value.state.NeedsReview?
    requires JobAt(r, i, id).Some? ==> !JobAt(r, i, id).value.state.NeedsReview?
    ensures Acts(r, i, id) && r.calls[i].op.act.ReviewOp? && JobAt(r, i, id).Some?
    ensures var j := JobAt(r, i, id).value; var k := JobAt(r, i + 1, id).value;
            (k.reviewKind == Some(Predeclared) && j.state.Claimed?)
            || (k.reviewKind == Some(SelfFlagged) && j.state.Running?)
  {
    JobNext(r, i, id);
    FoundIsNamed(r, i, id);
    ReviewNext(JobAt(r, i, id).value, r.calls[i]);
    JobActs(r, i, id);
  }
}
