/** What one worker invocation did to the store, read off the history of calls: its
    settlements, its manners and whether its report is true. */
module WorkerHistory {
  import opened RelayTypes
  import opened JobSweep
  import opened StoreSteps
  import opened StoreRuns
  import opened JobLives
  import opened Fencing
  import opened Gates
  import opened StoreLaws

  datatype Outcome =
    | Lost
    | NoPrompt
    | ExecutorDenied
    | WriteDenied
    | GatedForReview
    | TimedOutParked
    | TimedOutRequeued
    | TurnFailed
    | FlaggedForReview
    | Done

  // ---- what an invocation did, read off the history ------------------------

  /** Call k was accepted and ended the claim under this token. */
  ghost predicate SettlesAt(r: Run, k: nat, token: string)
    requires r.Shaped() && k < |r.calls|
  {
    CarriesAt(r, k, token) && Acts(r, k, r.calls[k].op.id) && r.calls[k].op.act.Settles(token)
  }

  ghost predicate Unsettled(r: Run, n: nat, me: nat, token: string)
    requires r.Shaped()
  {
    forall k :: n <= k < |r.calls| && r.calls[k].caller == me ==> !SettlesAt(r, k, token)
  }

  ghost predicate PoliteSince(r: Run, n: nat, me: nat)
    requires r.Shaped()
  {
    forall k :: n <= k < |r.calls| && r.calls[k].caller == me ==> PoliteAt(r, k)
  }

  /** The operation an outcome speaks of. */
  predicate Tells(outcome: Outcome, act: JobOp) {
    match outcome
    case Lost => false
    case NoPrompt => act.FailOp?
    case ExecutorDenied => act.FailOp?
    case WriteDenied => act.FailOp?
    case GatedForReview => act.ReviewOp? && act.kind == Predeclared
    case TimedOutParked => act.ParkOp?
    case TimedOutRequeued => act.ReleaseOp?
    case TurnFailed => act.FailOp?
    case FlaggedForReview => act.ReviewOp? && act.kind == SelfFlagged
    case Done => act.CompleteOp?
  }

  /** Since call n, `me` settled the claim in the way the outcome tells, and in the
      whole run nobody else settled it. */
  ghost predicate SettledOnce(r: Run, n: nat, me: nat, token: string, outcome: Outcome)
    requires r.Shaped()
  {
    exists k :: n <= k < |r.calls| && r.calls[k].caller == me && SettlesAt(r, k, token)
                && Tells(outcome, r.calls[k].op.act)
                && forall m :: 0 <= m < |r.calls| && SettlesAt(r, m, token) ==> m == k
  }

  /** Since call n someone other than `me` completed the job under this token. */
  ghost predicate OthersComplete(r: Run, n: nat, me: nat, token: string)
    requires r.Shaped()
  {
    exists k :: n <= k < |r.calls| && r.calls[k].caller != me && SettlesAt(r, k, token) && r.calls[k].op.act.CompleteOp?
  }

  /** Since call n `me` settled nothing, for another caller completed the job under
      this token. */
  ghost predicate CompletedForUs(r: Run, n: nat, me: nat, token: string)
    requires r.Shaped()
  {
    Unsettled(r, n, me, token) && OthersComplete(r, n, me, token)
  }

  /** Call k is the operation of `me` that settled the claim, and nobody else did. */
  ghost predicate OurSettlement(r: Run, n: nat, k: nat, me: nat, id: string, token: string)
    requires r.Shaped()
  {
    && n <= k < |r.calls| && r.calls[k].caller == me && SettlesAt(r, k, token) && r.calls[k].op.id == id
    && forall m :: 0 <= m < |r.calls| && SettlesAt(r, m, token) ==> m == k
  }

  /** `me` settled the claim by exactly this operation; or it asked to complete, and
      another caller's complete under the token came first. */
  ghost predicate AnsweredBy(r: Run, n: nat, me: nat, id: string, token: string, act: JobOp)
    requires r.Shaped()
  {
    || (exists k: nat :: OurSettlement(r, n, k, me, id, token) && r.calls[k].op.act == act)
    || (act.CompleteOp? && CompletedForUs(r, n, me, token))
  }

  /** The job is the snapshot that the claim which drew the token returned. */
  ghost predicate Handed(r: Run, job: Job, token: string)
    requires r.Shaped()
  {
    exists c :: 0 <= c < |r.calls| && ClaimsAt(r, c, job.id, token) && JobAt(r, c + 1, job.id) == Some(job)
  }

  ghost predicate Dead(r: Run, token: string)
    requires r.Shaped()
  {
    token in r.names[|r.calls|] && !Live(r.stores[|r.calls|], token)
  }

  // ---- lemmas about single calls -------------------------------------------

  /** Apart from the idempotent complete, a call is answered "ok" exactly when it
      was accepted. */
  lemma ReplyTells(r: Run, k: nat)
    requires r.Valid() && k < |r.calls| && r.calls[k].op.OnJob?
    ensures !r.calls[k].op.act.ClaimOp? && !r.calls[k].op.act.CompleteOp? ==>
              (r.results[k].reply.Accepted? <==> Acts(r, k, r.calls[k].op.id))
    ensures r.calls[k].op.act.CompleteOp? && r.results[k].reply.Accepted? && !Acts(r, k, r.calls[k].op.id) ==>
              JobAt(r, k, r.calls[k].op.id).Some?
              && CompletedBy(JobAt(r, k, r.calls[k].op.id).value, r.calls[k].op.act.token)
    ensures r.calls[k].op.act.CompleteOp? && Acts(r, k, r.calls[k].op.id) ==> r.results[k].reply.Accepted?
  {
    var c := r.calls[k];
    JobActs(r, k, c.op.id);
    if JobAt(r, k, c.op.id).Some? {
      ActReply(SweepJob(JobAt(r, k, c.op.id).value, c.now), c.now, c.op.act);
      SweptCompletion(JobAt(r, k, c.op.id).value, c.now);
    }
  }

  predicate CompletedBy(j: Job, token: string) {
    j.state.Completed? && j.completedBy == Some(token)
  }

  lemma ActReply(j: Job, now: int, act: JobOp)
    ensures !act.ClaimOp? && !act.CompleteOp? ==> (Act(j, now, act).reply.Accepted? <==> Act(j, now, act).changed)
    ensures act.CompleteOp? ==>
              (Act(j, now, act).reply.Accepted? <==> Act(j, now, act).changed || CompletedBy(j, act.token))
  {
  }

  lemma SweptCompletion(j: Job, now: int)
    ensures SweepJob(j, now).state.Completed? ==> SweepJob(j, now) == j
  {
  }

  /** A job completed under a token was completed by a call that carried it. */
  lemma {:induction false} CompletionHasCall(r: Run, i: nat, k: nat, id: string, token: string)
    requires r.Valid() && i <= k <= |r.calls|
    requires JobAt(r, i, id).Some? && !CompletedBy(JobAt(r, i, id).value, token)
    requires JobAt(r, k, id).Some? && CompletedBy(JobAt(r, k, id).value, token)
    ensures exists m :: i <= m < k && SettlesAt(r, m, token) && r.calls[m].op.act.CompleteOp?
  {
    if i < k {
      TaskKept(r, i, k, id);
      var j := JobAt(r, k - 1, id).value;
      if CompletedBy(j, token) {
        CompletionHasCall(r, i, k - 1, id, token);
      } else {
        FoundIsNamed(r, k - 1, id);
        JobNext(r, k - 1, id);
        CompletedNext(j, r.calls[k - 1], token);
        JobActs(r, k - 1, id);
        assert SettlesAt(r, k - 1, token);
      }
    }
  }

  lemma CompletedNext(j: Job, c: Call, token: string)
    requires JobOk(j) && !CompletedBy(j, token) && CompletedBy(Lived(j, c), token)
    ensures c.op.OnJob? && c.op.id == j.id && c.op.act.CompleteOp? && c.op.act.token == token
    ensures Act(SweepJob(j, c.now), c.now, c.op.act).changed
  {
    SweepJobOk(j, c.now);
    SweptCompletion(j, c.now);
    assert SweepJob(j, c.now).completedBy == j.completedBy;
    if c.op.OnJob? {
      ActCompletes(SweepJob(j, c.now), c.now, c.op.act, token);
    }
  }

  lemma ActCompletes(j: Job, now: int, act: JobOp, token: string)
    requires JobOk(j) && !CompletedBy(j, token) && CompletedBy(Act(j, now, act).job, token)
    ensures act.CompleteOp? && act.token == token && Act(j, now, act).changed
  {
  }

  // ---- the history after one more call -------------------------------------

  lemma GrownPolite(r: Run, later: Run, n: nat, me: nat)
    requires r.Shaped() && later.Shaped() && Grows(r, later) && n <= |r.calls|
    requires PoliteSince(r, n, me) && PoliteSince(later, |r.calls|, me)
    ensures PoliteSince(later, n, me)
  {
    forall k | n <= k < |later.calls| && later.calls[k].caller == me
      ensures PoliteAt(later, k)
    {
      if k < |r.calls| {
        assert PoliteAt(r, k);
      }
    }
  }

  lemma GrownUnsettled(r: Run, later: Run, n: nat, me: nat, token: string)
    requires r.Shaped() && later.Shaped() && Grows(r, later) && n <= |r.calls|
    requires Unsettled(r, n, me, token) && Unsettled(later, |r.calls|, me, token)
    ensures Unsettled(later, n, me, token)
  {
    forall k | n <= k < |later.calls| && later.calls[k].caller == me
      ensures !SettlesAt(later, k, token)
    {
      if k < |r.calls| {
        assert !SettlesAt(r, k, token);
      }
    }
  }

  lemma GrownHanded(r: Run, later: Run, job: Job, token: string)
    requires r.Shaped() && later.Shaped() && Grows(r, later) && Handed(r, job, token)
    ensures Handed(later, job, token)
  {
    var c :| 0 <= c < |r.calls| && ClaimsAt(r, c, job.id, token) && JobAt(r, c + 1, job.id) == Some(job);
    assert ClaimsAt(later, c, job.id, token) && JobAt(later, c + 1, job.id) == Some(job);
  }

  /** A settling call made last, if accepted, is the one settlement of its token in
      the whole run. */
  lemma LastSettles(r: Run, n: nat, me: nat, token: string, outcome: Outcome)
    requires r.Valid() && n < |r.calls| && r.calls[|r.calls| - 1].caller == me
    requires SettlesAt(r, |r.calls| - 1, token) && Tells(outcome, r.calls[|r.calls| - 1].op.act)
    ensures SettledOnce(r, n, me, token, outcome)
  {
    var last := |r.calls| - 1;
    forall m | 0 <= m < |r.calls| && SettlesAt(r, m, token)
      ensures m == last
    {
      if m < last {
        SettlesOnce(r, m, last, token);
      }
    }
  }

  lemma GrownSettledOnce(r: Run, later: Run, n: nat, me: nat, token: string, outcome: Outcome)
    requires r.Valid() && later.Valid() && Grows(r, later) && SettledOnce(r, n, me, token, outcome)
    ensures SettledOnce(later, n, me, token, outcome)
  {
    var k :| n <= k < |r.calls| && r.calls[k].caller == me && SettlesAt(r, k, token)
             && Tells(outcome, r.calls[k].op.act);
    assert SettlesAt(later, k, token);
    forall m | 0 <= m < |later.calls| && SettlesAt(later, m, token)
      ensures m == k
    {
      if m < k {
        SettlesOnce(later, m, k, token);
      } else if k < m {
        SettlesOnce(later, k, m, token);
      }
    }
  }

  /** Nothing that carries a dead token is accepted any more, however far on. */
  lemma DeadRefuses(r: Run, later: Run, k: nat, token: string)
    requires r.Valid() && later.Valid() && Grows(r, later) && Dead(r, token)
    requires |r.calls| <= k < |later.calls| && CarriesAt(later, k, token)
    ensures !Acts(later, k, later.calls[k].op.id)
  {
    DeadStaysDead(later, |r.calls|, k, token);
    LiveIsHeld(later, k, token);
    if Acts(later, k, later.calls[k].op.id) {
      AcceptedNeedsClaim(later, k, token);
    }
  }

  lemma DeadGrows(r: Run, later: Run, token: string)
    requires r.Valid() && later.Valid() && Grows(r, later) && Dead(r, token)
    ensures Dead(later, token)
  {
    DeadStaysDead(later, |r.calls|, |later.calls|, token);
  }

  /** The operations the holder of this job's claim may ask for. */
  predicate MayAsk(job: Job, act: JobOp) {
    match act
    case ReleaseOp(_) => !job.payload.Writes()
    case FailOp(_, _, retry) => !retry
    case StartOp(_) => !job.payload.Gated() || job.cleared
    case _ => true
  }

  /** Whatever the others did since the claim, the job is still the task that was
      handed out, so an operation allowed by the snapshot is polite. */
  lemma HandedIsPolite(r: Run, later: Run, job: Job, token: string, k: nat)
    requires r.Valid() && later.Valid() && Grows(r, later) && Handed(r, job, token)
    requires |r.calls| <= k < |later.calls| && later.calls[k].op.OnJob? && later.calls[k].op.id == job.id
    requires MayAsk(job, later.calls[k].op.act)
    ensures PoliteAt(later, k)
  {
    GrownHanded(r, later, job, token);
    var c :| 0 <= c < |r.calls| && ClaimsAt(r, c, job.id, token) && JobAt(r, c + 1, job.id) == Some(job);
    assert JobAt(later, c + 1, job.id) == Some(job);
    if JobAt(later, k, job.id).Some? {
      TaskKept(later, c + 1, k, job.id);
    }
  }

  // ---- what one exchange with the store proves -----------------------------

  /** From r to later, `me` did nothing but read. */
  ghost predicate OnlyRead(r: Run, later: Run, me: nat) {
    && r.Shaped() && later.Valid() && Grows(r, later)
    && forall k :: |r.calls| <= k < |later.calls| && later.calls[k].caller == me ==> !later.calls[k].op.OnJob?
  }

  /** From r to later, `me` made one call: this one, as the last. */
  ghost predicate CalledLast(r: Run, later: Run, me: nat, op: Op) {
    && r.Valid() && later.Valid() && Grows(r, later) && |later.calls| > |r.calls|
    && var last := |later.calls| - 1;
       later.calls[last].caller == me && later.calls[last].op == op
       && forall k :: |r.calls| <= k < last ==> later.calls[k].caller != me
  }

  ghost predicate AskedLast(r: Run, later: Run, me: nat, id: string, act: JobOp) {
    CalledLast(r, later, me, OnJob(id, act))
  }

  lemma ReadIsHarmless(r: Run, later: Run, me: nat, token: string)
    requires OnlyRead(r, later, me)
    ensures Unsettled(later, |r.calls|, me, token) && PoliteSince(later, |r.calls|, me)
  {
  }

  lemma AskIsPolite(r: Run, later: Run, me: nat, job: Job, token: string, act: JobOp)
    requires AskedLast(r, later, me, job.id, act) && Handed(r, job, token) && MayAsk(job, act)
    ensures PoliteSince(later, |r.calls|, me)
  {
    var last := |later.calls| - 1;
    forall k | |r.calls| <= k < |later.calls| && later.calls[k].caller == me
      ensures PoliteAt(later, k)
    {
      assert k == last;
      HandedIsPolite(r, later, job, token, last);
    }
  }

  lemma AskUnsettled(r: Run, later: Run, me: nat, id: string, token: string, act: JobOp)
    requires AskedLast(r, later, me, id, act)
    requires !act.Settles(token) || !Acts(later, |later.calls| - 1, id)
    ensures Unsettled(later, |r.calls|, me, token)
  {
  }

  /** The answer to a settling operation: not ok means nothing was settled; ok means
      this call settled the claim. Only a completion may instead have been made by
      another caller meanwhile. */
  lemma SettlingAnswer(r: Run, later: Run, me: nat, id: string, token: string, act: JobOp, told: Outcome)
    requires AskedLast(r, later, me, id, act) && act.Settles(token) && Tells(told, act)
    requires act.CompleteOp? ==> HeldAt(r, |r.calls|, id, token)
    ensures var ok := later.results[|later.calls| - 1].reply.Accepted?;
            && (!ok ==> Unsettled(later, |r.calls|, me, token))
            && (ok ==> SettledOnce(later, |r.calls|, me, token, told)
                       || (act.CompleteOp? && CompletedForUs(later, |r.calls|, me, token)))
            && (Dead(r, token) ==> !ok)
  {
    var last := |later.calls| - 1;
    ReplyTells(later, last);
    if Acts(later, last, id) {
      assert SettlesAt(later, last, token);
      LastSettles(later, |r.calls|, me, token, told);
    } else {
      AskUnsettled(r, later, me, id, token, act);
      if act.CompleteOp? && later.results[last].reply.Accepted? {
        CompletedMeanwhile(r, later, me, id, token);
      }
    }
    if Dead(r, token) {
      DeadRefuses(r, later, last, token);
      LiveIsHeld(r, |r.calls|, token);
    }
  }

  lemma CompletedMeanwhile(r: Run, later: Run, me: nat, id: string, token: string)
    requires r.Valid() && later.Valid() && Grows(r, later) && |later.calls| > |r.calls|
    requires HeldAt(r, |r.calls|, id, token)
    requires var last := |later.calls| - 1;
             JobAt(later, last, id).Some? && CompletedBy(JobAt(later, last, id).value, token)
             && forall k :: |r.calls| <= k < last ==> later.calls[k].caller != me
    ensures OthersComplete(later, |r.calls|, me, token)
  {
    FoundIsNamed(r, |r.calls|, id);
    CompletionHasCall(later, |r.calls|, |later.calls| - 1, id, token);
  }

  /** A token is only ever held by the job it was drawn for. */
  lemma HeldWhereDrawn(r: Run, c: nat, k: nat, id: string, other: string, token: string)
    requires r.Valid() && c < |r.calls| && k <= |r.calls| && ClaimsAt(r, c, id, token) && HeldAt(r, k, other, token)
    ensures other == id
  {
    HeldSinceClaim(r, k, other, token);
    var d: nat :| d < k && ClaimsAt(r, d, other, token);
    DrawnOnce(r, c, d, id, other, token);
  }

  lemma NotHeldIsDead(r: Run, job: Job, token: string)
    requires r.Valid() && Handed(r, job, token) && !HeldAt(r, |r.calls|, job.id, token)
    ensures Dead(r, token)
  {
    var c :| 0 <= c < |r.calls| && ClaimsAt(r, c, job.id, token);
    ClaimDrawsFresh(r, c, job.id, token);
    NamesGrow(r, c + 1, |r.calls|);
    LiveIsHeld(r, |r.calls|, token);
    if other :| HeldAt(r, |r.calls|, other, token) {
      HeldWhereDrawn(r, c, |r.calls|, job.id, other, token);
    }
  }

  /** A refused heartbeat, release or park means that the token is dead. */
  lemma RefusedIsDead(r: Run, later: Run, me: nat, job: Job, token: string, act: JobOp)
    requires AskedLast(r, later, me, job.id, act) && Handed(r, job, token)
    requires act.Carries(token) && (act.HeartbeatOp? || act.ReleaseOp? || act.ParkOp?)
    requires !Acts(later, |later.calls| - 1, job.id)
    ensures Dead(later, token)
  {
    var last := |later.calls| - 1;
    GrownHanded(r, later, job, token);
    JobActs(later, last, job.id);
    if JobAt(later, last, job.id).Some? && JobAt(later, last + 1, job.id).Some? {
      var j := JobAt(later, last, job.id).value;
      FoundIsNamed(later, last, job.id);
      SweepJobOk(j, later.calls[last].now);
      RefusedNotHeld(SweepJob(j, later.calls[last].now), later.calls[last].now, act, token);
    }
    NotHeldIsDead(later, job, token);
  }

  lemma RefusedNotHeld(j: Job, now: int, act: JobOp, token: string)
    requires JobOk(j) && act.Carries(token) && (act.HeartbeatOp? || act.ReleaseOp? || act.ParkOp?)
    requires !Act(j, now, act).changed
    ensures !Act(j, now, act).job.Holds(token)
  {
  }

  /** What the answer to a heartbeat means: ours, or dead for good. */
  lemma BeatAnswer(r: Run, later: Run, me: nat, job: Job, token: string, leaseMs: Option<int>)
    requires AskedLast(r, later, me, job.id, HeartbeatOp(token, leaseMs)) && Handed(r, job, token)
    ensures var ok := Acts(later, |later.calls| - 1, job.id);
            if ok then HeldAt(later, |later.calls|, job.id, token) else Dead(later, token)
  {
    var last := |later.calls| - 1;
    if Acts(later, last, job.id) {
      AcceptedNeedsClaim(later, last, token);
    } else {
      RefusedIsDead(r, later, me, job, token, HeartbeatOp(token, leaseMs));
    }
  }

  lemma NotOursIsDead(r: Run, job: Job, token: string)
    requires r.Valid() && Handed(r, job, token)
    requires var cur := JobAt(r, |r.calls|, job.id);
             cur.None? || !cur.value.state.InFlight() || !cur.value.Holds(token)
    ensures Dead(r, token)
  {
    if JobAt(r, |r.calls|, job.id).Some? {
      FoundIsNamed(r, |r.calls|, job.id);
    }
    NotHeldIsDead(r, job, token);
  }

  /** Someone completed the job under this token between calls i and k. */
  ghost predicate CompletedBetween(r: Run, i: nat, k: nat, token: string)
    requires r.Shaped() && k <= |r.calls|
  {
    exists m :: i <= m < k && SettlesAt(r, m, token) && r.calls[m].op.act.CompleteOp?
  }

  /** Once completed under a token, a retained job stays so. */
  lemma CompletedStays(r: Run, m: nat, k: nat, id: string, token: string)
    requires r.Valid() && m < k <= |r.calls| && SettlesAt(r, m, token) && r.calls[m].op.act.CompleteOp?
             && r.calls[m].op.id == id
    ensures JobAt(r, k, id).Some? ==> CompletedBy(JobAt(r, k, id).value, token)
  {
    JobActs(r, m, id);
    if JobAt(r, k, id).Some? {
      ActReply(SweepJob(JobAt(r, m, id).value, r.calls[m].now), r.calls[m].now, r.calls[m].op.act);
      SettledIsFrozen(r, m + 1, k, id);
    }
  }

  /** A settlement of a held token is one of the job that holds it. */
  lemma SettlesItsJob(r: Run, i: nat, m: nat, id: string, token: string)
    requires r.Valid() && i <= m < |r.calls| && HeldAt(r, i, id, token) && SettlesAt(r, m, token)
    ensures r.calls[m].op.id == id
  {
    HeldSinceClaim(r, i, id, token);
    var c: nat :| c < i && ClaimsAt(r, c, id, token);
    AcceptedNeedsClaim(r, m, token);
    HeldWhereDrawn(r, c, m, id, r.calls[m].op.id, token);
  }

  /** Exactly when `complete` says ok without having done it, for a caller who held
      the claim: the job is still retained, and another call completed it under the
      same token in between. */
  lemma CompletionAnswer(r: Run, later: Run, me: nat, id: string, token: string, result: Option<string>)
    requires AskedLast(r, later, me, id, CompleteOp(token, result)) && HeldAt(r, |r.calls|, id, token)
    ensures var last := |later.calls| - 1;
            later.results[last].reply.Accepted? && !Acts(later, last, id) <==>
            JobAt(later, |later.calls|, id).Some? && CompletedBetween(later, |r.calls|, last, token)
  {
    var last := |later.calls| - 1;
    assert HeldAt(later, |r.calls|, id, token);
    ReplyTells(later, last);
    JobActs(later, last, id);
    if CompletedBetween(later, |r.calls|, last, token) && JobAt(later, |later.calls|, id).Some? {
      var m :| |r.calls| <= m < last && SettlesAt(later, m, token) && later.calls[m].op.act.CompleteOp?;
      SettlesItsJob(later, |r.calls|, m, id, token);
      TaskKept(later, |r.calls|, |later.calls|, id);
      CompletedStays(later, m, last, id, token);
      SweptCompletion(JobAt(later, last, id).value, later.calls[last].now);
    }
    if later.results[last].reply.Accepted? && !Acts(later, last, id) {
      FoundIsNamed(r, |r.calls|, id);
      CompletionHasCall(later, |r.calls|, last, id, token);
    }
  }

  // ---- reports -------------------------------------------------------------

  /** The report of an invocation that began before call n is true: lost means it
      settled nothing; anything else means it settled the claim once, in the way it
      says, and nobody else did; only Done may mean instead that another caller's
      complete under the same token came first (CompletionAnswer says exactly when).
      And none of its calls was impolite. */
  ghost predicate Honest(r: Run, n: nat, me: nat, token: string, outcome: Outcome)
    requires r.Shaped()
  {
    && PoliteSince(r, n, me)
    && (outcome.Lost? ==> Unsettled(r, n, me, token))
    && (!outcome.Lost? ==> SettledOnce(r, n, me, token, outcome) || (outcome.Done? && CompletedForUs(r, n, me, token)))
  }

  lemma HonestBefore(r: Run, later: Run, n: nat, me: nat, token: string, outcome: Outcome)
    requires r.Valid() && later.Valid() && Grows(r, later) && n <= |r.calls|
    requires PoliteSince(r, n, me) && Unsettled(r, n, me, token) && Honest(later, |r.calls|, me, token, outcome)
    ensures Honest(later, n, me, token, outcome)
  {
    GrownPolite(r, later, n, me);
    if Unsettled(later, |r.calls|, me, token) {
      GrownUnsettled(r, later, n, me, token);
    }
  }

  lemma HonestAfter(r: Run, later: Run, n: nat, me: nat, token: string, outcome: Outcome)
    requires r.Valid() && n <= |r.calls| && Honest(r, n, me, token, outcome) && OnlyRead(r, later, me)
    ensures Honest(later, n, me, token, outcome)
  {
    ReadIsHarmless(r, later, me, token);
    GrownPolite(r, later, n, me);
    if Unsettled(r, n, me, token) {
      GrownUnsettled(r, later, n, me, token);
    }
    if !outcome.Lost? && SettledOnce(r, n, me, token, outcome) {
      GrownSettledOnce(r, later, n, me, token, outcome);
    } else if !outcome.Lost? {
      var k :| n <= k < |r.calls| && r.calls[k].caller != me && SettlesAt(r, k, token) && r.calls[k].op.act.CompleteOp?;
      assert SettlesAt(later, k, token);
    }
  }

  lemma AnswerIsHonest(r: Run, later: Run, me: nat, job: Job, token: string, act: JobOp, told: Outcome)
    requires AskedLast(r, later, me, job.id, act) && Handed(r, job, token)
    requires act.Settles(token) && MayAsk(job, act) && Tells(told, act)
    requires act.CompleteOp? ==> HeldAt(r, |r.calls|, job.id, token)
    ensures var ok := later.results[|later.calls| - 1].reply.Accepted?;
            Honest(later, |r.calls|, me, token, if ok then told else Lost) && (Dead(r, token) ==> !ok)
  {
    SettlingAnswer(r, later, me, job.id, token, act, told);
    AskIsPolite(r, later, me, job, token, act);
  }

  lemma AdvanceAnswer(r: Run, later: Run, me: nat, job: Job, token: string, act: JobOp)
    requires AskedLast(r, later, me, job.id, act) && Handed(r, job, token)
    requires act.Carries(token) && !act.Settles(token) && MayAsk(job, act)
    ensures PoliteSince(later, |r.calls|, me) && Unsettled(later, |r.calls|, me, token) && Handed(later, job, token)
    ensures later.results[|later.calls| - 1].reply.Accepted? <==> Acts(later, |later.calls| - 1, job.id)
    ensures Dead(r, token) ==> !Acts(later, |later.calls| - 1, job.id)
  {
    var last := |later.calls| - 1;
    ReplyTells(later, last);
    AskIsPolite(r, later, me, job, token, act);
    AskUnsettled(r, later, me, job.id, token, act);
    GrownHanded(r, later, job, token);
    if Dead(r, token) {
      DeadRefuses(r, later, last, token);
    }
  }

  /** `me` had its startRunning accepted at call s, and then, as the last call so
      far, its immediate heartbeat, both under this token. */
  ghost predicate RanFrom(r: Run, n: nat, me: nat, id: string, token: string, leaseMs: int, s: nat)
    requires r.Shaped()
  {
    && n <= s < |r.calls| - 1
    && r.calls[s].caller == me && StartsAt(r, s, id) && CarriesAt(r, s, token)
    && var h := |r.calls| - 1;
       r.calls[h].caller == me && Acts(r, h, id) && r.calls[h].op.act == HeartbeatOp(token, Some(leaseMs))
  }

  lemma StartedThenBeat(before: Run, started: Run, beaten: Run, me: nat, id: string, token: string, leaseMs: int)
    requires AskedLast(before, started, me, id, StartOp(token)) && Acts(started, |started.calls| - 1, id)
    requires PoliteSince(started, |before.calls|, me) && Unsettled(started, |before.calls|, me, token)
    requires AskedLast(started, beaten, me, id, HeartbeatOp(token, Some(leaseMs)))
    requires PoliteSince(beaten, |started.calls|, me) && Unsettled(beaten, |started.calls|, me, token)
    ensures PoliteSince(beaten, |before.calls|, me) && Unsettled(beaten, |before.calls|, me, token)
    ensures Acts(beaten, |beaten.calls| - 1, id) ==>
              RanFrom(beaten, |before.calls|, me, id, token, leaseMs, |started.calls| - 1)
  {
    GrownPolite(started, beaten, |before.calls|, me);
    GrownUnsettled(started, beaten, |before.calls|, me, token);
    var s := |started.calls| - 1;
    assert beaten.calls[s] == started.calls[s] && beaten.results[s] == started.results[s];
  }

  /** When the turn was entered, after `p` calls, the last of them was the accepted
      immediate heartbeat, and the accepted startRunning was call s, both by `me`. */
  ghost predicate EnteredAfter(r: Run, n: nat, me: nat, id: string, token: string, leaseMs: int, s: nat, p: nat)
    requires r.Shaped()
  {
    && n <= s < p - 1 < |r.calls|
    && r.calls[s].caller == me && StartsAt(r, s, id) && CarriesAt(r, s, token)
    && r.calls[p - 1].caller == me && Acts(r, p - 1, id)
    && r.calls[p - 1].op.act == HeartbeatOp(token, Some(leaseMs))
  }

  lemma EnteredStays(r: Run, later: Run, n: nat, me: nat, id: string, token: string, leaseMs: int, s: nat)
    requires r.Valid() && later.Valid() && Grows(r, later) && RanFrom(r, n, me, id, token, leaseMs, s)
    ensures EnteredAfter(later, n, me, id, token, leaseMs, s, |r.calls|)
  {
    var h := |r.calls| - 1;
    assert later.calls[s] == r.calls[s] && later.results[s] == r.results[s];
    assert later.calls[h] == r.calls[h] && later.results[h] == r.results[h];
  }

  // ---- which operation it was, and what it stored --------------------------

  lemma AnswerIsOurs(r: Run, later: Run, me: nat, job: Job, token: string, act: JobOp)
    requires AskedLast(r, later, me, job.id, act) && act.Settles(token)
    requires act.CompleteOp? ==> HeldAt(r, |r.calls|, job.id, token)
    ensures later.results[|later.calls| - 1].reply.Accepted? ==> AnsweredBy(later, |r.calls|, me, job.id, token, act)
  {
    var last := |later.calls| - 1;
    ReplyTells(later, last);
    if Acts(later, last, job.id) {
      assert SettlesAt(later, last, token);
      forall m | 0 <= m < |later.calls| && SettlesAt(later, m, token)
        ensures m == last
      {
        if m < last {
          SettlesOnce(later, m, last, token);
        }
      }
      assert OurSettlement(later, |r.calls|, last, me, job.id, token);
    } else if later.results[last].reply.Accepted? {
      AskUnsettled(r, later, me, job.id, token, act);
      CompletedMeanwhile(r, later, me, job.id, token);
    }
  }

  lemma GrownSettlement(r: Run, later: Run, n: nat, k: nat, me: nat, id: string, token: string)
    requires r.Valid() && later.Valid() && Grows(r, later) && OurSettlement(r, n, k, me, id, token)
    ensures OurSettlement(later, n, k, me, id, token) && later.calls[k] == r.calls[k]
    ensures JobAt(later, k + 1, id) == JobAt(r, k + 1, id)
  {
    assert SettlesAt(later, k, token);
    forall m | 0 <= m < |later.calls| && SettlesAt(later, m, token)
      ensures m == k
    {
      if m < k {
        SettlesOnce(later, m, k, token);
      } else if k < m {
        SettlesOnce(later, k, m, token);
      }
    }
  }

  lemma AnsweredAfter(r: Run, later: Run, n: nat, me: nat, id: string, token: string, act: JobOp)
    requires r.Valid() && n <= |r.calls| && OnlyRead(r, later, me) && AnsweredBy(r, n, me, id, token, act)
    ensures AnsweredBy(later, n, me, id, token, act)
  {
    if k: nat :| OurSettlement(r, n, k, me, id, token) && r.calls[k].op.act == act {
      GrownSettlement(r, later, n, k, me, id, token);
    } else {
      ReadIsHarmless(r, later, me, token);
      GrownUnsettled(r, later, n, me, token);
      var k :| n <= k < |r.calls| && r.calls[k].caller != me && SettlesAt(r, k, token) && r.calls[k].op.act.CompleteOp?;
      assert SettlesAt(later, k, token);
    }
  }

  /** What the store holds after an accepted settling operation. */
  predicate Stores(act: JobOp, j: Job) {
    match act
    case ReleaseOp(_) => j.state.Queued? && j.claim.None?
    case CompleteOp(_, result) => j.state.Completed? && j.result == result
    case FailOp(_, error, retry) => !retry ==> j.state.Failed? && j.error == error
    case ParkOp(_, error) => j.state.NeedsRecovery? && (error.Some? ==> j.error == error)
    case ReviewOp(_, reason, kind, result) =>
      j.state.NeedsReview? && j.riskReason == reason && j.reviewKind == Some(kind) && j.result == result
    case _ => true
  }

  lemma SettlementStores(r: Run, k: nat, token: string)
    requires r.Valid() && k < |r.calls| && SettlesAt(r, k, token)
    ensures JobAt(r, k + 1, r.calls[k].op.id).Some?
    ensures Stores(r.calls[k].op.act, JobAt(r, k + 1, r.calls[k].op.id).value)
  {
    JobActs(r, k, r.calls[k].op.id);
    var j := JobAt(r, k, r.calls[k].op.id).value;
    ActStores(SweepJob(j, r.calls[k].now), r.calls[k].now, r.calls[k].op.act);
  }

  lemma ActStores(j: Job, now: int, act: JobOp)
    requires Act(j, now, act).changed
    ensures Stores(act, Act(j, now, act).job)
  {
  }

  // ---- lost means gone -----------------------------------------------------

  /** Somebody had startRunning accepted under this token. */
  ghost predicate StartedUnder(r: Run, k: nat, id: string, token: string)
    requires r.Shaped() && k < |r.calls|
  {
    StartsAt(r, k, id) && CarriesAt(r, k, token)
  }

  /** The job had been started under our token before call n, or by another caller. */
  ghost predicate Usurped(r: Run, n: nat, me: nat, id: string, token: string)
    requires r.Shaped()
  {
    exists k: nat :: k < |r.calls| && StartedUnder(r, k, id, token) && (k < n || r.calls[k].caller != me)
  }

  lemma HeldActs(j: Job, now: int, act: JobOp, token: string)
    requires JobOk(j) && j.Holds(token) && Act(j, now, act).job.Holds(token)
    requires act.ClaimOp? ==> act.freshToken != token
    ensures Act(j, now, act).job.state == j.state || (act == StartOp(token) && Act(j, now, act).changed)
    ensures j.state.Running? ==> Act(j, now, act).job.state.Running?
  {
  }

  lemma HeldStateNext(r: Run, k: nat, id: string, token: string)
    requires r.Valid() && k < |r.calls| && HeldAt(r, k, id, token) && HeldAt(r, k + 1, id, token)
    ensures var before := JobAt(r, k, id).value.state; var after := JobAt(r, k + 1, id).value.state;
            (after == before || StartedUnder(r, k, id, token)) && (before.Running? ==> after.Running?)
  {
    var j := JobAt(r, k, id).value;
    var c := r.calls[k];
    FoundIsNamed(r, k, id);
    HeldIsNamed(r, k, id, token);
    SweepJobOk(j, c.now);
    JobNext(r, k, id);
    if c.op.OnJob? && c.op.id == id {
      JobActs(r, k, id);
      FreshIsOther(r, k, token);
      if SweepJob(j, c.now) == j {
        HeldActs(j, c.now, c.op.act, token);
      } else {
        ActJobOk(SweepJob(j, c.now), c.now, c.op.act);
      }
    }
  }

  lemma FreshIsOther(r: Run, k: nat, token: string)
    requires r.Valid() && k < |r.calls| && token in r.names[k]
    ensures r.calls[k].op.OnJob? && r.calls[k].op.act.ClaimOp? ==> r.calls[k].op.act.freshToken != token
  {
    var op := r.calls[k].op;
    assert r.StepAt(k);
    assert op.OnJob? && op.act.ClaimOp? ==> op.act.freshToken in Mints(op);
  }

  lemma HeldBetween(r: Run, i: nat, m: nat, k: nat, id: string, token: string)
    requires r.Valid() && i <= m <= k <= |r.calls| && HeldAt(r, i, id, token) && HeldAt(r, k, id, token)
    ensures HeldAt(r, m, id, token)
  {
    HeldSinceClaim(r, i, id, token);
    HeldSinceClaim(r, k, id, token);
    var c: nat :| c < i && ClaimsAt(r, c, id, token) && forall l :: c < l <= i ==> HeldAt(r, l, id, token);
    var d: nat :| d < k && ClaimsAt(r, d, id, token) && forall l :: d < l <= k ==> HeldAt(r, l, id, token);
    DrawnOnce(r, c, d, id, id, token);
  }

  /** Running under a token, a job stays running while it is held under it. */
  lemma {:induction false} RunningStays(r: Run, i: nat, k: nat, id: string, token: string)
    requires r.Valid() && i <= k <= |r.calls| && HeldAt(r, i, id, token) && HeldAt(r, k, id, token)
    requires JobAt(r, i, id).value.state.Running?
    ensures JobAt(r, k, id).value.state.Running?
  {
    if i < k {
      HeldBetween(r, i, k - 1, k, id, token);
      RunningStays(r, i, k - 1, id, token);
      HeldStateNext(r, k - 1, id, token);
    }
  }

  /** Claimed, it stays claimed until somebody starts it under the token. */
  lemma {:induction false} ClaimedUntilStarted(r: Run, i: nat, k: nat, id: string, token: string)
    requires r.Valid() && i <= k <= |r.calls| && HeldAt(r, i, id, token) && HeldAt(r, k, id, token)
    requires JobAt(r, i, id).value.state.Claimed?
    ensures JobAt(r, k, id).value.state.Claimed? || exists m: nat :: i <= m < k && StartedUnder(r, m, id, token)
  {
    if i < k {
      HeldBetween(r, i, k - 1, k, id, token);
      ClaimedUntilStarted(r, i, k - 1, id, token);
      HeldStateNext(r, k - 1, id, token);
      if JobAt(r, k - 1, id).value.state.Claimed? && !JobAt(r, k, id).value.state.Claimed? {
        assert StartedUnder(r, k - 1, id, token);
      }
    }
  }

  lemma HandedUntilStarted(r: Run, job: Job, token: string, k: nat)
    requires r.Valid() && k <= |r.calls| && Handed(r, job, token) && HeldAt(r, k, job.id, token)
    ensures JobAt(r, k, job.id).value.state.Claimed? || exists m: nat :: m < k && StartedUnder(r, m, job.id, token)
  {
    var c :| 0 <= c < |r.calls| && ClaimsAt(r, c, job.id, token) && JobAt(r, c + 1, job.id) == Some(job);
    HeldSinceClaim(r, k, job.id, token);
    var d: nat :| d < k && ClaimsAt(r, d, job.id, token) && forall l :: d < l <= k ==> HeldAt(r, l, job.id, token);
    DrawnOnce(r, c, d, job.id, job.id, token);
    assert HeldAt(r, c + 1, job.id, token);
    JobActs(r, c, job.id);
    ClaimedUntilStarted(r, c + 1, k, job.id, token);
  }

  /** When an operation of the holder is refused, the token is not held, unless the job
      is not in the state that a start or a review asks for. */
  predicate FitsState(act: JobOp, state: State) {
    (act.StartOp? ==> state.Claimed?)
    && (act.ReviewOp? ==> (act.kind.Predeclared? && state.Claimed?) || (act.kind.SelfFlagged? && state.Running?))
  }

  lemma FittingIsAccepted(j: Job, now: int, act: JobOp, token: string)
    requires JobOk(j) && act.Carries(token) && j.Holds(token) && FitsState(act, j.state)
    ensures Act(j, now, act).changed && (Act(j, now, act).job.Holds(token) || act.Settles(token))
  {
  }

  lemma RefusedFittingIsDead(r: Run, later: Run, me: nat, job: Job, token: string, act: JobOp)
    requires AskedLast(r, later, me, job.id, act) && Handed(r, job, token) && act.Carries(token)
    requires !Acts(later, |later.calls| - 1, job.id)
    requires HeldAt(later, |later.calls| - 1, job.id, token) ==>
               FitsState(act, JobAt(later, |later.calls| - 1, job.id).value.state)
    ensures Dead(later, token)
  {
    var last := |later.calls| - 1;
    var c := later.calls[last];
    GrownHanded(r, later, job, token);
    if HeldAt(later, last + 1, job.id, token) {
      HeldNext(later, last, job.id, token);
      FoundIsNamed(later, last, job.id);
      JobActs(later, last, job.id);
      var j := JobAt(later, last, job.id).value;
      SweepJobOk(j, c.now);
      if SweepJob(j, c.now) == j {
        FittingIsAccepted(j, c.now, act, token);
      } else {
        ActJobOk(SweepJob(j, c.now), c.now, act);
      }
      assert false;
    }
    NotHeldIsDead(later, job, token);
  }

  /** A refused operation of the holder means that the token is dead, or that the job
      was started under it by someone else. */
  lemma RefusedMeansGone(r: Run, later: Run, me: nat, job: Job, token: string, act: JobOp)
    requires AskedLast(r, later, me, job.id, act) && Handed(r, job, token) && act.Carries(token)
    requires !Acts(later, |later.calls| - 1, job.id) && (act.ReviewOp? ==> act.kind.Predeclared?)
    ensures Dead(later, token) || Usurped(later, |r.calls|, me, job.id, token)
  {
    var last := |later.calls| - 1;
    GrownHanded(r, later, job, token);
    if HeldAt(later, last, job.id, token) && !FitsState(act, JobAt(later, last, job.id).value.state) {
      HandedUntilStarted(later, job, token, last);
      var m: nat :| m < last && StartedUnder(later, m, job.id, token);
      assert m < |r.calls| || later.calls[m].caller != me;
    } else {
      RefusedFittingIsDead(r, later, me, job, token, act);
    }
  }

  /** Once running under our token, every refusal means that the token is dead. */
  lemma RefusedWhileRunning(r: Run, later: Run, me: nat, job: Job, token: string, act: JobOp)
    requires AskedLast(r, later, me, job.id, act) && Handed(r, job, token) && act.Carries(token) && !act.StartOp?
    requires !Acts(later, |later.calls| - 1, job.id) && (act.ReviewOp? ==> act.kind.SelfFlagged?)
    requires HeldAt(r, |r.calls|, job.id, token) && JobAt(r, |r.calls|, job.id).value.state.Running?
    ensures Dead(later, token)
  {
    var last := |later.calls| - 1;
    assert HeldAt(later, |r.calls|, job.id, token);
    if HeldAt(later, last, job.id, token) {
      RunningStays(later, |r.calls|, last, job.id, token);
    }
    RefusedFittingIsDead(r, later, me, job, token, act);
  }

  /** If the job is held under the token, it is running. */
  ghost predicate RunsIfHeld(r: Run, id: string, token: string)
    requires r.Shaped()
  {
    HeldAt(r, |r.calls|, id, token) ==> JobAt(r, |r.calls|, id).value.state.Running?
  }

  lemma StillRuns(r: Run, later: Run, job: Job, token: string)
    requires r.Valid() && later.Valid() && Grows(r, later) && Handed(r, job, token) && RunsIfHeld(r, job.id, token)
    ensures RunsIfHeld(later, job.id, token)
  {
    var n, k := |r.calls|, |later.calls|;
    if HeldAt(later, k, job.id, token) {
      var c :| 0 <= c < n && ClaimsAt(r, c, job.id, token) && JobAt(r, c + 1, job.id) == Some(job);
      assert ClaimsAt(later, c, job.id, token);
      HeldSinceClaim(later, k, job.id, token);
      var d: nat :| d < k && ClaimsAt(later, d, job.id, token)
                    && forall l :: d < l <= k ==> HeldAt(later, l, job.id, token);
      DrawnOnce(later, c, d, job.id, job.id, token);
      assert HeldAt(later, n, job.id, token);
      RunningStays(later, n, k, job.id, token);
    }
  }

  lemma RanRuns(r: Run, n: nat, me: nat, id: string, token: string, leaseMs: int, s: nat)
    requires r.Valid() && RanFrom(r, n, me, id, token, leaseMs, s)
    ensures RunsIfHeld(r, id, token)
  {
    var h := |r.calls| - 1;
    AcceptedNeedsClaim(r, s, token);
    AcceptedNeedsClaim(r, h, token);
    JobActs(r, s, id);
    RunningStays(r, s + 1, h + 1, id, token);
  }

  /** Lost for good reason: the token is dead, or someone else had started the job
      under it. */
  ghost predicate Gone(r: Run, n: nat, me: nat, id: string, token: string)
    requires r.Shaped()
  {
    Dead(r, token) || Usurped(r, n, me, id, token)
  }

  lemma GrownGone(r: Run, later: Run, n: nat, me: nat, id: string, token: string)
    requires r.Valid() && later.Valid() && Grows(r, later) && Gone(r, n, me, id, token)
    ensures Gone(later, n, me, id, token)
    ensures Dead(r, token) ==> Dead(later, token)
  {
    if Dead(r, token) {
      DeadGrows(r, later, token);
    } else {
      var k: nat :| k < |r.calls| && StartedUnder(r, k, id, token) && (k < n || r.calls[k].caller != me);
      assert later.calls[k] == r.calls[k] && later.results[k] == r.results[k];
      assert StartedUnder(later, k, id, token);
    }
  }

  /** What a refused settling operation means. */
  lemma RefusalMeans(r: Run, later: Run, me: nat, job: Job, token: string, act: JobOp)
    requires AskedLast(r, later, me, job.id, act) && Handed(r, job, token) && act.Settles(token)
    requires !later.results[|later.calls| - 1].reply.Accepted? && (act.ReviewOp? ==> !act.kind.OtherKind?)
    ensures !(act.ReviewOp? && act.kind.SelfFlagged?) ==> Gone(later, |r.calls|, me, job.id, token)
    ensures !(act.ReviewOp? && act.kind.Predeclared?)
            && HeldAt(r, |r.calls|, job.id, token) && RunsIfHeld(r, job.id, token) ==>
              Dead(later, token)
  {
    ReplyTells(later, |later.calls| - 1);
    if !(act.ReviewOp? && act.kind.SelfFlagged?) {
      RefusedMeansGone(r, later, me, job, token, act);
    }
    if !(act.ReviewOp? && act.kind.Predeclared?) && HeldAt(r, |r.calls|, job.id, token)
      && RunsIfHeld(r, job.id, token) {
      RefusedWhileRunning(r, later, me, job, token, act);
    }
  }

  lemma RefusedAdvance(r: Run, later: Run, me: nat, job: Job, token: string, act: JobOp)
    requires AskedLast(r, later, me, job.id, act) && Handed(r, job, token)
             && (act == StartOp(token) || (act.HeartbeatOp? && act.token == token))
    requires !Acts(later, |later.calls| - 1, job.id)
    ensures Gone(later, |r.calls|, me, job.id, token) && (act.HeartbeatOp? ==> Dead(later, token))
  {
    if act.HeartbeatOp? {
      RefusedIsDead(r, later, me, job, token, act);
    } else {
      RefusedMeansGone(r, later, me, job, token, act);
    }
  }

  // ---- how often -----------------------------------------------------------

  /** How often `me` made this very call among calls n..k. */
  ghost function Times(r: Run, n: nat, k: nat, me: nat, op: Op): nat
    requires n <= k <= |r.calls|
  {
    if k == n then 0
    else Times(r, n, k - 1, me, op) + if r.calls[k - 1].caller == me && r.calls[k - 1].op == op then 1 else 0
  }

  lemma {:induction false} TimesOfOthers(r: Run, n: nat, i: nat, k: nat, me: nat, op: Op)
    requires n <= i <= k <= |r.calls| && forall m :: i <= m < k && r.calls[m].caller == me ==> r.calls[m].op != op
    ensures Times(r, n, k, me, op) == Times(r, n, i, me, op)
  {
    if i < k {
      TimesOfOthers(r, n, i, k - 1, me, op);
    }
  }

  lemma {:induction false} TimesStay(r: Run, later: Run, n: nat, k: nat, me: nat, op: Op)
    requires n <= k <= |r.calls| && r.calls <= later.calls
    ensures Times(later, n, k, me, op) == Times(r, n, k, me, op)
  {
    if n < k {
      TimesStay(r, later, n, k - 1, me, op);
    }
  }

  lemma TimesCalled(r: Run, later: Run, n: nat, me: nat, last: Op, op: Op)
    requires CalledLast(r, later, me, last) && n <= |r.calls|
    ensures Times(later, n, |later.calls|, me, op) ==
            Times(r, n, |r.calls|, me, op) + if last == op then 1 else 0
  {
    TimesStay(r, later, n, |r.calls|, me, op);
    TimesOfOthers(later, n, |r.calls|, |later.calls| - 1, me, op);
  }

  lemma {:induction false} TimesAdd(r: Run, n: nat, m: nat, k: nat, me: nat, op: Op)
    requires n <= m <= k <= |r.calls|
    ensures Times(r, n, k, me, op) == Times(r, n, m, me, op) + Times(r, m, k, me, op)
  {
    if m < k {
      TimesAdd(r, n, m, k - 1, me, op);
    }
  }

  /** One other call before does not count. */
  lemma TimesSince(r: Run, middle: Run, later: Run, me: nat, first: Op, op: Op)
    requires CalledLast(r, middle, me, first) && first != op && middle.calls <= later.calls
    ensures Times(later, |r.calls|, |later.calls|, me, op) == Times(later, |middle.calls|, |later.calls|, me, op)
  {
    TimesCalled(r, middle, |r.calls|, me, first, op);
    TimesStay(middle, later, |r.calls|, |middle.calls|, me, op);
    TimesAdd(later, |r.calls|, |middle.calls|, |later.calls|, me, op);
  }

  /** All operations that `me` asked for since call n would settle this claim. */
  ghost predicate OnlySettles(r: Run, n: nat, me: nat, token: string) {
    forall k :: n <= k < |r.calls| && r.calls[k].caller == me && r.calls[k].op.OnJob? ==>
                  r.calls[k].op.act.Settles(token)
  }

  // ---- any number of workers -----------------------------------------------

  /** Every caller was polite in all its calls; each worker method guarantees it for
      the calls it makes. */
  ghost predicate AllPolite(r: Run)
    requires r.Shaped()
  {
    forall me: nat :: PoliteSince(r, 0, me)
  }

  /** However many polite workers there are, with however many operators, a write job
      stored with policy park starts again only after a recovery, and a gated job
      starts only after an approval. */
  lemma PoliteWorkersRunOnce(r: Run, k: nat, id: string)
    requires r.Valid() && AllPolite(r) && k < |r.calls| && StartsAt(r, k, id) && JobAt(r, k, id).Some?
    ensures ParkedWrite(JobAt(r, k, id).value) ==>
              forall i :: 0 <= i < k && StartsAt(r, i, id) ==> exists m :: i < m < k && RecoversAt(r, m, id)
    ensures JobAt(r, k, id).value.payload.Gated() ==> exists a :: 0 <= a < k && ApprovesAt(r, a, id)
  {
    forall m | 0 <= m < |r.calls|
      ensures PoliteAt(r, m)
    {
      assert PoliteSince(r, 0, r.calls[m].caller);
    }
    if JobAt(r, k, id).value.payload.Gated() {
      GatedRunsApproved(r, k, id);
    }
    forall i | ParkedWrite(JobAt(r, k, id).value) && 0 <= i < k && StartsAt(r, i, id)
      ensures exists m :: i < m < k && RecoversAt(r, m, id)
    {
      JobActs(r, i, id);
      TaskKept(r, i, k, id);
      ParkedWriteRunsOnce(r, i, k, id);
    }
  }
}
