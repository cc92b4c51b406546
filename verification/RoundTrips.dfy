/** What a stretch of a run undoes: a claim that is given back, a job that waited for
    an operator, a whole attempt. Any calls on other jobs, any sweeps and any refused
    calls may come in between. */
module RoundTrips {
  import opened RelayTypes
  import opened JobSweep
  import opened StoreSteps
  import opened StoreRuns
  import opened JobLives
  import opened Fencing

  // ---- jobs that wait for an operator --------------------------------------

  predicate Waits(j: Job) {
    j.state.NeedsRecovery? || j.state.NeedsReview?
  }

  /** Call i is an accepted recover or resolveReview of this job. */
  ghost predicate OperatorAt(r: Run, i: nat, id: string)
    requires r.Shaped() && i < |r.calls|
  {
    Acts(r, i, id) && (r.calls[i].op.act.RecoverOp? || r.calls[i].op.act.ResolveOp?)
  }

  lemma WaitingAct(j: Job, now: int, act: JobOp)
    requires JobOk(j) && Waits(j) && (Act(j, now, act).changed ==> !act.RecoverOp? && !act.ResolveOp?)
    ensures Act(j, now, act).job == j
  {
  }

  /** A job that waits for recovery or review is neither lost nor touched until an
      operator decides, whatever the retention, the cap and the clocks. */
  lemma {:induction false} WaitsForOperator(r: Run, i: nat, k: nat, id: string)
    requires r.Valid() && i <= k <= |r.calls| && JobAt(r, i, id).Some? && Waits(JobAt(r, i, id).value)
    requires forall m :: i <= m < k ==> !OperatorAt(r, m, id)
    ensures JobAt(r, k, id) == JobAt(r, i, id)
  {
    if i < k {
      var j := JobAt(r, i, id).value;
      WaitsForOperator(r, i, k - 1, id);
      FoundIsNamed(r, k - 1, id);
      JobNext(r, k - 1, id);
      if r.calls[k - 1].op.OnJob? && r.calls[k - 1].op.id == id {
        JobActs(r, k - 1, id);
        assert !OperatorAt(r, k - 1, id);
        WaitingAct(j, r.calls[k - 1].now, r.calls[k - 1].op.act);
      }
    }
  }

  /** Approving a self-flagged review completes the job with the very output that was
      held back at call i, and changes nothing else but the review's own fields. */
  lemma ApprovedOutput(r: Run, i: nat, k: nat, id: string)
    requires r.Valid() && i < k < |r.calls| && Acts(r, i, id) && Acts(r, k, id)
    requires r.calls[i].op.act.ReviewOp? && r.calls[i].op.act.kind == SelfFlagged
    requires r.calls[k].op.act.ResolveOp? && r.calls[k].op.act.approve
    requires forall m :: i < m < k ==> !OperatorAt(r, m, id)
    ensures JobAt(r, i + 1, id).Some? && JobAt(r, k + 1, id).Some?
    ensures var held := JobAt(r, i + 1, id).value; var done := JobAt(r, k + 1, id).value; var c := r.calls[k];
            done.result == r.calls[i].op.act.result
            && done == held.(state := Completed, terminalAt := Some(c.now), updatedAt := c.now, reviewAt := Some(c.now),
                             reviewBy := c.op.act.resolver, reviewNote := c.op.act.note)
  {
    JobActs(r, i, id);
    WaitsForOperator(r, i + 1, k, id);
    JobActs(r, k, id);
  }

  // ---- attempts ------------------------------------------------------------

  /** The job as call i finds it, after its own sweep. */
  ghost function Swept(r: Run, i: nat, id: string): Job
    requires r.Shaped() && i < |r.calls| && JobAt(r, i, id).Some?
  {
    SweepJob(JobAt(r, i, id).value, r.calls[i].now)
  }

  ghost predicate ClaimedAt(r: Run, i: nat, id: string)
    requires r.Shaped() && i < |r.calls|
  {
    Acts(r, i, id) && r.calls[i].op.act.ClaimOp?
  }

  /** How far an attempt at j may have changed the job while it is not back yet. */
  predicate Underway(j: Job, k: Job) {
    var plain := k.(state := j.state, claim := j.claim, updatedAt := j.updatedAt);
    match k.state
    case Queued => false
    case Claimed => plain == j
    case Running => plain == j
    case NeedsRecovery => plain.(terminalAt := j.terminalAt, error := j.error) == j
    case NeedsReview =>
      plain.(terminalAt := j.terminalAt, riskReason := j.riskReason, reviewKind := j.reviewKind,
             result := j.result) == j
    case _ => true
  }

  /** The job j when it is back in the queue by this call, with what an attempt can
      leave behind: nothing after a release; one more attempt after a failure with
      retry or, when the call did not act on the job, an expired lease; no attempts
      and no error after a recovery, and the review's traces after an approval. */
  function Back(j: Job, last: Job, c: Call, acted: bool): Job {
    var base := j.(updatedAt := c.now);
    if !acted || !c.op.OnJob? then base.(attempts := j.attempts + 1)
    else match c.op.act
      case FailOp(_, _, _) => base.(attempts := j.attempts + 1)
      case RecoverOp => base.(attempts := 0, error := None)
      case ResolveOp(_, note, resolver) =>
        base.(attempts := 0, error := None, cleared := true, riskReason := last.riskReason,
              reviewKind := last.reviewKind, result := last.result,
              reviewBy := resolver, reviewAt := Some(c.now), reviewNote := note)
      case _ => base
  }

  lemma UnderwaySwept(j: Job, k: Job, now: int)
    requires JobOk(k) && j.state.Queued? && j.claim.None? && Underway(j, k)
    ensures var s := SweepJob(k, now); Underway(j, s) || s == j.(attempts := j.attempts + 1, updatedAt := now)
    ensures SweepJob(k, now).state.NeedsReview? ==> SweepJob(k, now) == k
  {
  }

  lemma UnderwayActed(j: Job, k: Job, now: int, act: JobOp)
    requires JobOk(j) && JobOk(k) && j.state.Queued? && Underway(j, k)
    ensures var acted := Act(k, now, act);
            Underway(j, acted.job)
            || (acted.changed && acted.job == Back(j, k, Call(0, now, DEFAULT_OPTS, OnJob(k.id, act)), true))
  {
  }

  lemma QueuedActed(k: Job, now: int, act: JobOp)
    requires JobOk(k) && k.state.Queued? && (Act(k, now, act).changed ==> !act.ClaimOp?)
    ensures Act(k, now, act).job == k || Act(k, now, act).job.state.Prunable()
  {
  }

  /** The call acts on this job, when it finds it swept like this. */
  predicate ActsOn(k: Job, c: Call) {
    c.op.OnJob? && c.op.id == k.id && Act(SweepJob(k, c.now), c.now, c.op.act).changed
  }

  lemma UnderwayLived(j: Job, k: Job, c: Call)
    requires JobOk(j) && JobOk(k) && j.state.Queued? && Underway(j, k) && !(ActsOn(k, c) && c.op.act.ClaimOp?)
    ensures Underway(j, Lived(k, c)) || Lived(k, c) == Back(j, k, c, ActsOn(k, c))
  {
    var swept := SweepJob(k, c.now);
    SweepJobOk(k, c.now);
    UnderwaySwept(j, k, c.now);
    if c.op.OnJob? && c.op.id == k.id {
      if swept.state.Queued? {
        QueuedActed(swept, c.now, c.op.act);
      } else {
        UnderwayActed(j, swept, c.now, c.op.act);
        if ActsOn(k, c) {
          SweptIfActed(k, c);
        }
      }
    }
  }

  lemma SweptIfActed(k: Job, c: Call)
    requires JobOk(k) && ActsOn(k, c) && !SweepJob(k, c.now).state.Queued?
    ensures !c.op.act.ResolveOp? || SweepJob(k, c.now) == k
  {
  }

  lemma UnderwayNext(r: Run, i: nat, k: nat, id: string)
    requires r.Valid() && k < |r.calls| && i < |r.calls| && JobAt(r, i, id).Some?
    requires JobAt(r, k, id).Some? && JobAt(r, k + 1, id).Some? && !ClaimedAt(r, k, id)
    requires var j := Swept(r, i, id); JobOk(j) && j.state.Queued? && Underway(j, JobAt(r, k, id).value)
    ensures var j := Swept(r, i, id); var next := JobAt(r, k + 1, id).value;
            Underway(j, next) || next == Back(j, JobAt(r, k, id).value, r.calls[k], Acts(r, k, id))
  {
    FoundIsNamed(r, k, id);
    JobNext(r, k, id);
    if r.calls[k].op.OnJob? && r.calls[k].op.id == id {
      JobActs(r, k, id);
    }
    assert ActsOn(JobAt(r, k, id).value, r.calls[k]) <==> Acts(r, k, id);
    UnderwayLived(Swept(r, i, id), JobAt(r, k, id).value, r.calls[k]);
  }

  lemma {:induction false} StaysUnderway(r: Run, i: nat, k: nat, id: string)
    requires r.Valid() && i < k <= |r.calls| && ClaimedAt(r, i, id) && JobAt(r, i, id).Some?
    requires forall m :: i < m < k ==> !ClaimedAt(r, m, id)
    requires forall m :: i < m <= k ==> JobAt(r, m, id).Some? && !JobAt(r, m, id).value.state.Queued?
    ensures var j := Swept(r, i, id); JobOk(j) && j.state.Queued? && Underway(j, JobAt(r, k, id).value)
  {
    FoundIsNamed(r, i, id);
    SweepJobOk(JobAt(r, i, id).value, r.calls[i].now);
    JobActs(r, i, id);
    if i + 1 < k {
      StaysUnderway(r, i, k - 1, id);
      UnderwayNext(r, i, k - 1, id);
      BackIsQueued(Swept(r, i, id), JobAt(r, k - 1, id).value, r.calls[k - 1], Acts(r, k - 1, id));
    }
  }

  lemma BackIsQueued(j: Job, last: Job, c: Call, acted: bool)
    ensures Back(j, last, c, acted).state == j.state
  {
  }

  /** A job claimed at call i that is queued again for the first time after call k - 1
      is the job that was claimed, but for what that call leaves behind. */
  lemma QueuedAgain(r: Run, i: nat, k: nat, id: string)
    requires r.Valid() && i + 1 < k <= |r.calls| && ClaimedAt(r, i, id)
    requires forall m :: i < m < k ==> !ClaimedAt(r, m, id)
    requires forall m :: i < m < k ==> JobAt(r, m, id).Some? && !JobAt(r, m, id).value.state.Queued?
    requires JobAt(r, k, id).Some? && JobAt(r, k, id).value.state.Queued?
    ensures JobAt(r, i, id).Some?
    ensures JobAt(r, k, id).value ==
            Back(Swept(r, i, id), JobAt(r, k - 1, id).value, r.calls[k - 1], Acts(r, k - 1, id))
  {
    JobActs(r, i, id);
    StaysUnderway(r, i, k - 1, id);
    UnderwayNext(r, i, k - 1, id);
  }

  lemma HeldFromClaim(r: Run, i: nat, k: nat, id: string, token: string)
    requires r.Valid() && i < k <= |r.calls| && ClaimsAt(r, i, id, token) && HeldAt(r, k, id, token)
    ensures forall m :: i < m <= k ==> HeldAt(r, m, id, token)
  {
    HeldSinceClaim(r, k, id, token);
    var c: nat :| c < k && ClaimsAt(r, c, id, token) && forall l :: c < l <= k ==> HeldAt(r, l, id, token);
    DrawnOnce(r, i, c, id, id, token);
  }

  lemma NoClaimWhileHeld(r: Run, i: nat, m: nat, id: string, token: string)
    requires r.Valid() && i < m < |r.calls| && ClaimsAt(r, i, id, token) && HeldAt(r, m + 1, id, token)
    ensures !ClaimedAt(r, m, id)
  {
    if ClaimedAt(r, m, id) {
      JobActs(r, m, id);
      assert ClaimsAt(r, m, id, token);
      DrawnOnce(r, i, m, id, id, token);
    }
  }

  /** A claim that is released gives back the very job that was claimed, with only a
      new update time, whatever happened to the claim in between. */
  lemma ReleaseUndoesClaim(r: Run, i: nat, k: nat, id: string, token: string)
    requires r.Valid() && i < k < |r.calls| && ClaimsAt(r, i, id, token)
    requires Acts(r, k, id) && r.calls[k].op.act == ReleaseOp(token)
    ensures JobAt(r, i, id).Some?
    ensures JobAt(r, k + 1, id) == Some(Swept(r, i, id).(updatedAt := r.calls[k].now))
  {
    AcceptedNeedsClaim(r, k, token);
    HeldFromClaim(r, i, k, id, token);
    forall m | i < m <= k
      ensures JobAt(r, m, id).Some? && !JobAt(r, m, id).value.state.Queued? && !ClaimedAt(r, m, id)
    {
      assert HeldAt(r, m, id, token);
      FoundIsNamed(r, m, id);
      if m < k {
        assert HeldAt(r, m + 1, id, token);
        NoClaimWhileHeld(r, i, m, id, token);
      }
    }
    JobActs(r, k, id);
    QueuedAgain(r, i, k + 1, id);
  }
}
