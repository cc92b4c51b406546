/** The execution side: claim, run a turn, settle. Between any two store calls of a
    worker the others may do anything; the turn itself may end in any way. */
module RelayWorker {
  import opened RelayTypes
  import opened StoreSteps
  import opened StoreRuns
  import opened JobLives
  import opened Fencing
  import opened RelayJobs
  import opened WorkerHistory

  // ---- the world around one invocation -------------------------------------

  /** What the others do before this invocation's k-th store call, and the clock
      reading that call takes. */
  datatype World = World(env: nat -> seq<Call>, clock: nat -> int)

  datatype Worker = Worker(allowWrites: bool, executorWrites: bool, leaseMs: int)

  /** How a turn ends. `flagged` is the motive of a self-flagged review. */
  datatype Ending =
    | Threw(message: string)
    | Returned(ok: bool, output: string, flagged: Option<string>, failure: Option<string>)

  /** A turn lasts for some heartbeat ticks; a timeout or shutdown may abort it. */
  datatype Turn = Turn(ticks: nat, abortedOutside: bool, ending: Ending)

  /** One invocation: as which worker, with what permissions, and how the turn goes. */
  datatype Shift = Shift(workerId: string, worker: Worker, turn: Turn)
  {
    function Grant(token: string): JobOp {
      ClaimOp(Some(workerId), Some(worker.leaseMs), token)
    }
  }

  predicate JobIsOurs(cur: Option<Job>, token: string) {
    cur.Some? && cur.value.state.InFlight() && cur.value.claim.Some? && cur.value.claim.value.token == token
  }

  // ---- talking to the store ------------------------------------------------

  /** getJob after some interference. */
  method Peek(store: RelayStore, me: nat, id: string, w: World, i: nat) returns (cur: Option<Job>)
    requires store.Valid()
    modifies store
    ensures store.Valid() && CalledLast(old(store.run), store.run, me, StoreSteps.GetJob(id))
    ensures OnlyRead(old(store.run), store.run, me)
    ensures cur == JobAt(store.run, |store.run.calls|, id)
  {
    store.Interfere(w.env(i), me);
    cur := store.GetJob(me, id, w.clock(i), DEFAULT_OPTS);
    ReadJob(store.run, |store.run.calls| - 1, id);
  }

  /** A fenced operation after some interference; ok is the store's answer. */
  method Ask(store: RelayStore, me: nat, job: Job, token: string, act: JobOp, w: World, i: nat) returns (ok: bool)
    requires store.Valid() && act.Carries(token)
    modifies store
    ensures store.Valid() && AskedLast(old(store.run), store.run, me, job.id, act)
    ensures ok == store.run.results[|store.run.calls| - 1].reply.Accepted?
  {
    store.Interfere(w.env(i), me);
    var reply;
    match act {
      case StartOp(_) => reply := store.StartRunning(me, job.id, token, w.clock(i), DEFAULT_OPTS);
      case HeartbeatOp(_, leaseMs) => reply := store.Heartbeat(me, job.id, token, leaseMs, w.clock(i), DEFAULT_OPTS);
      case ReleaseOp(_) => reply := store.Release(me, job.id, token, w.clock(i), DEFAULT_OPTS);
      case CompleteOp(_, result) => reply := store.Complete(me, job.id, token, result, w.clock(i), DEFAULT_OPTS);
      case FailOp(_, error, retry) => reply := store.Fail(me, job.id, token, error, retry, w.clock(i), DEFAULT_OPTS);
      case ParkOp(_, error) => reply := store.Park(me, job.id, token, error, w.clock(i), DEFAULT_OPTS);
      case ReviewOp(_, reason, kind, result) =>
        reply := store.SendToReview(me, job.id, token, reason, kind, result, w.clock(i), DEFAULT_OPTS);
    }
    ok := reply.Accepted?;
  }

  // ---- processJob ----------------------------------------------------------

  /** The job is held under the token, and running. */
  ghost predicate Runs(r: Run, id: string, token: string)
    requires r.Shaped()
  {
    HeldAt(r, |r.calls|, id, token) && RunsIfHeld(r, id, token)
  }

  lemma LostAfter(before: Run, asked: Run, later: Run, me: nat, job: Job, token: string, act: JobOp)
    requires AskedLast(before, asked, me, job.id, act) && Handed(before, job, token) && act.Settles(token)
             && MayAsk(job, act)
    requires !asked.results[|asked.calls| - 1].reply.Accepted? && (act.ReviewOp? ==> !act.kind.OtherKind?)
    requires later.Valid() && Grows(asked, later)
    ensures !(act.ReviewOp? && act.kind.SelfFlagged?) ==> Gone(later, |before.calls|, me, job.id, token)
    ensures !(act.ReviewOp? && act.kind.Predeclared?) && Runs(before, job.id, token) ==> Dead(later, token)
  {
    RefusalMeans(before, asked, me, job, token, act);
    if Gone(asked, |before.calls|, me, job.id, token) {
      GrownGone(asked, later, |before.calls|, me, job.id, token);
    }
  }

  /** Ask for a settling operation and report how it went. */
  method Settle(store: RelayStore, me: nat, job: Job, token: string, act: JobOp, told: Outcome, w: World, i: nat)
    returns (outcome: Outcome, seen: Option<Job>)
    requires store.Valid() && Handed(store.run, job, token)
    requires act.Settles(token) && MayAsk(job, act) && Tells(told, act)
    requires act.CompleteOp? ==> HeldAt(store.run, |store.run.calls|, job.id, token)
    modifies store
    ensures store.Valid() && Grows(old(store.run), store.run)
    ensures outcome == told || outcome.Lost?
    ensures !outcome.Lost? ==> AnsweredBy(store.run, |old(store.run).calls|, me, job.id, token, act)
    ensures outcome.Lost? && !(act.ReviewOp? && act.kind.SelfFlagged?) ==>
              Gone(store.run, |old(store.run).calls|, me, job.id, token)
    ensures outcome.Lost? && !(act.ReviewOp? && act.kind.Predeclared?) && old(Runs(store.run, job.id, token)) ==>
              Dead(store.run, token)
    ensures OnlySettles(store.run, |old(store.run).calls|, me, token)
    ensures seen == JobAt(store.run, |store.run.calls|, job.id)
    ensures Honest(store.run, |old(store.run).calls|, me, token, outcome)
    ensures Dead(old(store.run), token) ==> outcome.Lost?
  {
    ghost var before := store.run;
    var ok := Ask(store, me, job, token, act, w, i);
    ghost var asked := store.run;
    AnswerIsHonest(before, asked, me, job, token, act, told);
    AnswerIsOurs(before, asked, me, job, token, act);
    outcome := if ok then told else Lost;
    seen := Peek(store, me, job.id, w, i + 1);
    HonestAfter(asked, store.run, |before.calls|, me, token, outcome);
    if ok {
      AnsweredAfter(asked, store.run, |before.calls|, me, job.id, token, act);
    } else {
      LostAfter(before, asked, store.run, me, job, token, act);
    }
  }

  /** startRunning or heartbeat. */
  method Advance(store: RelayStore, me: nat, job: Job, token: string, act: JobOp, w: World, i: nat) returns (ok: bool)
    requires store.Valid() && Handed(store.run, job, token)
    requires act.Carries(token) && !act.Settles(token) && MayAsk(job, act)
    modifies store
    ensures store.Valid() && AskedLast(old(store.run), store.run, me, job.id, act) && Handed(store.run, job, token)
    ensures PoliteSince(store.run, |old(store.run).calls|, me)
            && Unsettled(store.run, |old(store.run).calls|, me, token)
    ensures ok <==> Acts(store.run, |store.run.calls| - 1, job.id)
    ensures !ok ==> Gone(store.run, |old(store.run).calls|, me, job.id, token)
    ensures !ok && act.HeartbeatOp? ==> Dead(store.run, token)
    ensures Dead(old(store.run), token) ==> !ok
  {
    ghost var before := store.run;
    ok := Ask(store, me, job, token, act, w, i);
    AdvanceAnswer(before, store.run, me, job, token, act);
    if !ok {
      RefusedAdvance(before, store.run, me, job, token, act);
    }
  }

  /** The claim may not start a turn: the job has no prompt, or may not write here,
      or is gated. The operation to settle it with, and what to report. */
  function Refusal(job: Job, token: string, worker: Worker): Option<(JobOp, Outcome)> {
    if !job.payload.Task? || job.payload.prompt == "" then
      Some((FailOp(token, Some("payload without a prompt"), false), NoPrompt))
    else if job.payload.write && !worker.executorWrites then
      Some((FailOp(token, Some("the executor does not write"), false), ExecutorDenied))
    else if job.payload.write && !worker.allowWrites then
      Some((FailOp(token, Some("writes not allowed"), false), WriteDenied))
    else if job.payload.gate != "" && !job.cleared then
      Some((ReviewOp(token, Some(job.payload.gate), Predeclared, None), GatedForReview))
    else None
  }

  /** The immediate heartbeat after an accepted startRunning. */
  method Renew(store: RelayStore, me: nat, job: Job, token: string, worker: Worker, w: World, ghost before: Run)
    returns (ok: bool)
    requires store.Valid() && Handed(store.run, job, token)
    requires AskedLast(before, store.run, me, job.id, StartOp(token)) && Acts(store.run, |store.run.calls| - 1, job.id)
    requires PoliteSince(store.run, |before.calls|, me) && Unsettled(store.run, |before.calls|, me, token)
    modifies store
    ensures store.Valid() && Grows(old(store.run), store.run)
    ensures PoliteSince(store.run, |before.calls|, me) && Unsettled(store.run, |before.calls|, me, token)
    ensures ok ==> RanFrom(store.run, |before.calls|, me, job.id, token, worker.leaseMs, |old(store.run).calls| - 1)
    ensures !ok ==> Dead(store.run, token)
  {
    ghost var started := store.run;
    ok := Advance(store, me, job, token, HeartbeatOp(token, Some(worker.leaseMs)), w, 1);
    StartedThenBeat(before, started, store.run, me, job.id, token, worker.leaseMs);
  }

  /** The job has a prompt, may write here if it writes, and is cleared if gated. */
  predicate MayRun(job: Job, worker: Worker) {
    && job.payload.Task? && job.payload.prompt != ""
    && (job.payload.write ==> worker.executorWrites && worker.allowWrites)
    && (job.payload.gate != "" ==> job.cleared)
  }

  /** A job that may not run was failed for good or sent to review before any turn, for
      the first reason that applies. */
  ghost predicate TurnedAway(r: Run, n: nat, me: nat, job: Job, token: string, worker: Worker, outcome: Outcome)
    requires r.Shaped()
  {
    var noPrompt := !job.payload.Task? || job.payload.prompt == "";
    var writes := job.payload.Task? && job.payload.write;
    && !MayRun(job, worker)
    && (outcome.NoPrompt? <==> noPrompt)
    && (outcome.ExecutorDenied? <==> !noPrompt && writes && !worker.executorWrites)
    && (outcome.WriteDenied? <==> !noPrompt && writes && worker.executorWrites && !worker.allowWrites)
    && (outcome.GatedForReview? <==> !noPrompt && (writes ==> worker.executorWrites && worker.allowWrites))
    && exists k: nat :: OurSettlement(r, n, k, me, job.id, token) && JobAt(r, k + 1, job.id).Some?
                   && var stored := JobAt(r, k + 1, job.id).value;
                      if outcome.GatedForReview? then
                        stored.state.NeedsReview? && stored.reviewKind == Some(Predeclared)
                        && stored.riskReason == Some(job.payload.gate) && stored.result.None?
                      else stored.state.Failed?
  }

  lemma RefusalTurnsAway(r: Run, n: nat, me: nat, job: Job, token: string, worker: Worker)
    requires r.Valid() && Refusal(job, token, worker).Some?
    requires AnsweredBy(r, n, me, job.id, token, Refusal(job, token, worker).value.0)
    ensures TurnedAway(r, n, me, job, token, worker, Refusal(job, token, worker).value.1)
  {
    var act := Refusal(job, token, worker).value.0;
    var k: nat :| OurSettlement(r, n, k, me, job.id, token) && r.calls[k].op.act == act;
    SettlementStores(r, k, token);
  }

  /** Take the job to running and renew its lease at once; ok only if both held. */
  method Launch(store: RelayStore, me: nat, job: Job, token: string, worker: Worker, w: World)
    returns (ok: bool, ghost startedAt: nat)
    requires store.Valid() && Handed(store.run, job, token) && Refusal(job, token, worker).None?
    modifies store
    ensures store.Valid() && Grows(old(store.run), store.run)
    ensures PoliteSince(store.run, |old(store.run).calls|, me)
            && Unsettled(store.run, |old(store.run).calls|, me, token)
    ensures ok ==> RanFrom(store.run, |old(store.run).calls|, me, job.id, token, worker.leaseMs, startedAt)
    ensures !ok ==> Gone(store.run, |old(store.run).calls|, me, job.id, token)
    ensures Dead(old(store.run), token) ==> !ok
  {
    ghost var before := store.run;
    ok := Advance(store, me, job, token, StartOp(token), w, 0);
    startedAt := |store.run.calls| - 1;
    if ok {
      ok := Renew(store, me, job, token, worker, w, before);
    }
  }

  /** Between claim and turn: refuse what may not run, send a gated job to review,
      or launch the turn. None means: run the turn. */
  method BeginTurn(store: RelayStore, me: nat, job: Job, token: string, worker: Worker, w: World)
    returns (outcome: Option<Outcome>, seen: Option<Job>, ghost startedAt: nat)
    requires store.Valid() && Handed(store.run, job, token)
    modifies store
    ensures store.Valid() && Grows(old(store.run), store.run)
    ensures outcome.Some? ==> Honest(store.run, |old(store.run).calls|, me, token, outcome.value)
    ensures outcome.Some? ==> seen == JobAt(store.run, |store.run.calls|, job.id)
    ensures outcome.Some? && !outcome.value.Lost? ==>
              TurnedAway(store.run, |old(store.run).calls|, me, job, token, worker, outcome.value)
    ensures outcome.None? ==>
              PoliteSince(store.run, |old(store.run).calls|, me)
              && Unsettled(store.run, |old(store.run).calls|, me, token)
    ensures outcome.None? ==>
              RanFrom(store.run, |old(store.run).calls|, me, job.id, token, worker.leaseMs, startedAt)
              && MayRun(job, worker) && RunsIfHeld(store.run, job.id, token)
    ensures outcome == Some(Lost) ==> Gone(store.run, |old(store.run).calls|, me, job.id, token)
    ensures Dead(old(store.run), token) ==> outcome == Some(Lost)
  {
    ghost var before := store.run;
    var refusal := Refusal(job, token, worker);
    seen, startedAt := None, 0;
    if refusal.Some? {
      var told;
      told, seen := Settle(store, me, job, token, refusal.value.0, refusal.value.1, w, 0);
      if !told.Lost? {
        RefusalTurnsAway(store.run, |before.calls|, me, job, token, worker);
      }
      outcome := Some(told);
      return;
    }
    var ok;
    ok, startedAt := Launch(store, me, job, token, worker, w);
    outcome := None;
    if !ok {
      ghost var launched := store.run;
      seen := Peek(store, me, job.id, w, 2);
      HonestAfter(launched, store.run, |before.calls|, me, token, Lost);
      GrownGone(launched, store.run, |before.calls|, me, job.id, token);
      outcome := Some(Lost);
    } else {
      RanRuns(store.run, |before.calls|, me, job.id, token, worker.leaseMs, startedAt);
    }
  }

  /** While the turn runs, each tick looks at the job and renews the lease, or aborts
      the turn when the job is no longer ours; an abort is never a false alarm. */
  method AwaitTurn(store: RelayStore, me: nat, job: Job, token: string, worker: Worker, ticks: nat, w: World, i: nat)
    returns (aborted: bool)
    requires store.Valid() && Handed(store.run, job, token)
    modifies store
    ensures store.Valid() && Grows(old(store.run), store.run) && Handed(store.run, job, token)
    ensures PoliteSince(store.run, |old(store.run).calls|, me)
            && Unsettled(store.run, |old(store.run).calls|, me, token)
    ensures aborted ==> Dead(store.run, token)
    ensures !aborted && ticks > 0 ==> HeldAt(store.run, |store.run.calls|, job.id, token)
    ensures !aborted ==>
              Times(store.run, |old(store.run).calls|, |store.run.calls|, me, Beat(job, token, worker)) == ticks
  {
    aborted := false;
    ghost var before := store.run;
    for t := 0 to ticks
      invariant store.Valid() && Grows(before, store.run) && Handed(store.run, job, token)
      invariant PoliteSince(store.run, |before.calls|, me) && Unsettled(store.run, |before.calls|, me, token)
      invariant aborted ==> Dead(store.run, token)
      invariant !aborted && t > 0 ==> HeldAt(store.run, |store.run.calls|, job.id, token)
      invariant !aborted ==> Times(store.run, |before.calls|, |store.run.calls|, me, Beat(job, token, worker)) == t
    {
      ghost var ticked := store.run;
      var ok;
      ghost var looked;
      ok, looked := Tick(store, me, job, token, worker, w, i + 2 * t);
      TimesCalled(ticked, looked, |before.calls|, me, StoreSteps.GetJob(job.id), Beat(job, token, worker));
      if ok {
        TimesCalled(looked, store.run, |before.calls|, me, Beat(job, token, worker), Beat(job, token, worker));
      }
      GrownPolite(ticked, store.run, |before.calls|, me);
      GrownUnsettled(ticked, store.run, |before.calls|, me, token);
      if aborted {
        DeadGrows(ticked, store.run, token);
      }
      if !ok {
        aborted := true;
      }
    }
  }

  /** The renewal of the lease that each tick asks for. */
  function Beat(job: Job, token: string, worker: Worker): Op {
    OnJob(job.id, HeartbeatOp(token, Some(worker.leaseMs)))
  }

  method Tick(store: RelayStore, me: nat, job: Job, token: string, worker: Worker, w: World, i: nat)
    returns (ok: bool, ghost looked: Run)
    requires store.Valid() && Handed(store.run, job, token)
    modifies store
    ensures store.Valid() && Grows(old(store.run), store.run) && Handed(store.run, job, token)
    ensures PoliteSince(store.run, |old(store.run).calls|, me)
            && Unsettled(store.run, |old(store.run).calls|, me, token)
    ensures if ok then HeldAt(store.run, |store.run.calls|, job.id, token) else Dead(store.run, token)
    ensures CalledLast(old(store.run), looked, me, StoreSteps.GetJob(job.id))
    ensures ok ==> CalledLast(looked, store.run, me, Beat(job, token, worker))
  {
    ghost var before := store.run;
    var cur := Peek(store, me, job.id, w, i);
    looked := store.run;
    ReadIsHarmless(before, looked, me, token);
    GrownHanded(before, looked, job, token);
    ok := JobIsOurs(cur, token);
    if !ok {
      NotOursIsDead(looked, job, token);
      return;
    }
    ok := Advance(store, me, job, token, HeartbeatOp(token, Some(worker.leaseMs)), w, i + 1);
    BeatAnswer(looked, store.run, me, job, token, Some(worker.leaseMs));
    GrownPolite(looked, store.run, |before.calls|, me);
    GrownUnsettled(looked, store.run, |before.calls|, me, token);
  }

  /** How a turn that ended is settled, and what is reported: an abort parks a write
      job and requeues any other, a throw or a failed turn fails it, a self-flagged
      one goes to review, and the rest completes. */
  function Settlement(job: Job, token: string, aborted: bool, ending: Ending): (JobOp, Outcome) {
    if aborted then
      if job.payload.Writes() then (ParkOp(token, Some("aborted by timeout (write)")), TimedOutParked)
      else (ReleaseOp(token), TimedOutRequeued)
    else match ending
      case Threw(message) => (FailOp(token, Some(message), false), TurnFailed)
      case Returned(ok, output, flagged, failure) =>
        if ok && flagged.Some? then (ReviewOp(token, flagged, SelfFlagged, Some(output)), FlaggedForReview)
        else if ok then (CompleteOp(token, Some(output)), Done)
        else (FailOp(token, OrElse(failure, "turn failed"), false), TurnFailed)
  }

  predicate Failing(ending: Ending) {
    ending.Threw? || !ending.ok
  }

  predicate Flagging(ending: Ending) {
    !Failing(ending) && ending.flagged.Some?
  }

  function FailureText(ending: Ending): string
    requires Failing(ending)
  {
    if ending.Threw? then ending.message else if ending.failure.Some? then ending.failure.value else "turn failed"
  }

  /** The settling operation and the job it stored, as the outcome promises them. */
  predicate Delivers(outcome: Outcome, ending: Ending, act: JobOp, stored: Job) {
    match outcome
    case TimedOutParked => act.ParkOp? && stored.state.NeedsRecovery?
    case TimedOutRequeued => act.ReleaseOp? && stored.state.Queued?
    case TurnFailed =>
      Failing(ending) && act.FailOp? && !act.retry
      && stored.state.Failed? && stored.error == Some(FailureText(ending))
    case FlaggedForReview =>
      Flagging(ending) && act.ReviewOp? && stored.state.NeedsReview? && stored.reviewKind == Some(SelfFlagged)
      && stored.riskReason == ending.flagged && stored.result == Some(ending.output)
    case Done => !Failing(ending) && act.CompleteOp? && stored.state.Completed? && stored.result == Some(ending.output)
    case _ => false
  }

  /** An entered turn that was not lost ends in exactly one way: an abort parks a write
      job and requeues any other; without one a throw or a failed turn fails the job
      for good with its message, a motive sends the output to review, and any other
      output completes the job, unless another caller completed it first. */
  ghost predicate Ended(r: Run, n: nat, me: nat, job: Job, token: string, aborted: bool, ending: Ending,
                        outcome: Outcome)
    requires r.Shaped()
  {
    var writes := job.payload.Task? && job.payload.write;
    && (outcome.TimedOutParked? <==> aborted && writes)
    && (outcome.TimedOutRequeued? <==> aborted && !writes)
    && (outcome.TurnFailed? <==> !aborted && Failing(ending))
    && (outcome.FlaggedForReview? <==> !aborted && Flagging(ending))
    && (outcome.Done? <==> !aborted && !Failing(ending) && !Flagging(ending))
    && ((outcome.Done? && CompletedForUs(r, n, me, token))
        || exists k: nat :: OurSettlement(r, n, k, me, job.id, token) && JobAt(r, k + 1, job.id).Some?
                       && Delivers(outcome, ending, r.calls[k].op.act, JobAt(r, k + 1, job.id).value))
  }

  lemma SettlementEnds(r: Run, n: nat, me: nat, job: Job, token: string, aborted: bool, ending: Ending)
    requires r.Valid() && AnsweredBy(r, n, me, job.id, token, Settlement(job, token, aborted, ending).0)
    ensures Ended(r, n, me, job, token, aborted, ending, Settlement(job, token, aborted, ending).1)
  {
    var act := Settlement(job, token, aborted, ending).0;
    if k: nat :| OurSettlement(r, n, k, me, job.id, token) && r.calls[k].op.act == act {
      SettlementStores(r, k, token);
      assert Delivers(Settlement(job, token, aborted, ending).1, ending, act, JobAt(r, k + 1, job.id).value);
    }
  }

  lemma EndedBefore(r: Run, later: Run, n: nat, me: nat, job: Job, token: string, aborted: bool, ending: Ending,
                    outcome: Outcome)
    requires r.Valid() && later.Valid() && Grows(r, later) && n <= |r.calls| && Unsettled(r, n, me, token)
    requires Ended(later, |r.calls|, me, job, token, aborted, ending, outcome)
    ensures Ended(later, n, me, job, token, aborted, ending, outcome)
  {
    if outcome.Done? && CompletedForUs(later, |r.calls|, me, token) {
      GrownUnsettled(r, later, n, me, token);
    } else {
      var k: nat :| OurSettlement(later, |r.calls|, k, me, job.id, token) && JobAt(later, k + 1, job.id).Some?
               && Delivers(outcome, ending, later.calls[k].op.act, JobAt(later, k + 1, job.id).value);
      assert OurSettlement(later, n, k, me, job.id, token);
    }
  }

  /** Settle the turn that ended. */
  method SettleTurn(store: RelayStore, me: nat, job: Job, token: string, aborted: bool, ending: Ending, w: World,
                    i: nat)
    returns (outcome: Outcome, seen: Option<Job>)
    requires store.Valid() && Handed(store.run, job, token) && HeldAt(store.run, |store.run.calls|, job.id, token)
    modifies store
    ensures store.Valid() && Grows(old(store.run), store.run)
    ensures Honest(store.run, |old(store.run).calls|, me, token, outcome)
    ensures !outcome.Lost? ==> Ended(store.run, |old(store.run).calls|, me, job, token, aborted, ending, outcome)
    ensures OnlySettles(store.run, |old(store.run).calls|, me, token)
    ensures seen == JobAt(store.run, |store.run.calls|, job.id)
    ensures Dead(old(store.run), token) ==> outcome.Lost?
    ensures outcome.Lost? && old(RunsIfHeld(store.run, job.id, token)) ==> Dead(store.run, token)
  {
    ghost var before := store.run;
    var settlement := Settlement(job, token, aborted, ending);
    outcome, seen := Settle(store, me, job, token, settlement.0, settlement.1, w, i);
    if !outcome.Lost? {
      SettlementEnds(store.run, |before.calls|, me, job, token, aborted, ending);
    }
  }

  /** After the turn: the store decides first, a cancelled or stolen job is lost;
      otherwise settle it. Also run by a turn that outlived its claim. */
  method FinishTurn(store: RelayStore, me: nat, job: Job, token: string, aborted: bool, ending: Ending, w: World,
                    i: nat)
    returns (outcome: Outcome, seen: Option<Job>)
    requires store.Valid() && Handed(store.run, job, token)
    modifies store
    ensures store.Valid() && Grows(old(store.run), store.run)
    ensures Honest(store.run, |old(store.run).calls|, me, token, outcome)
    ensures !outcome.Lost? ==> Ended(store.run, |old(store.run).calls|, me, job, token, aborted, ending, outcome)
    ensures OnlySettles(store.run, |old(store.run).calls|, me, token)
    ensures seen == JobAt(store.run, |store.run.calls|, job.id)
    ensures Dead(old(store.run), token) ==> outcome.Lost?
    ensures outcome.Lost? && old(RunsIfHeld(store.run, job.id, token)) ==> Dead(store.run, token)
  {
    ghost var before := store.run;
    seen := Peek(store, me, job.id, w, i);
    ghost var looked := store.run;
    ReadIsHarmless(before, looked, me, token);
    GrownHanded(before, looked, job, token);
    if !JobIsOurs(seen, token) {
      NotOursIsDead(looked, job, token);
      return Lost, seen;
    }
    if RunsIfHeld(before, job.id, token) {
      StillRuns(before, looked, job, token);
    }
    assert HeldAt(looked, |looked.calls|, job.id, token);
    if Dead(before, token) {
      DeadGrows(before, looked, token);
    }
    outcome, seen := SettleTurn(store, me, job, token, aborted, ending, w, i + 1);
    HonestBefore(looked, store.run, |before.calls|, me, token, outcome);
    if !outcome.Lost? {
      EndedBefore(looked, store.run, |before.calls|, me, job, token, aborted, ending, outcome);
    }
  }

  /** The turn itself, with its ticks, and its end. */
  method RunTurn(store: RelayStore, me: nat, job: Job, token: string, worker: Worker, turn: Turn, w: World)
    returns (outcome: Outcome, seen: Option<Job>)
    requires store.Valid() && Handed(store.run, job, token)
    modifies store
    ensures store.Valid() && Grows(old(store.run), store.run)
    ensures Honest(store.run, |old(store.run).calls|, me, token, outcome)
    ensures !outcome.Lost? ==>
              Ended(store.run, |old(store.run).calls|, me, job, token, turn.abortedOutside, turn.ending, outcome)
              && Times(store.run, |old(store.run).calls|, |store.run.calls|, me, Beat(job, token, worker)) == turn.ticks
    ensures seen == JobAt(store.run, |store.run.calls|, job.id)
    ensures outcome.Lost? && old(RunsIfHeld(store.run, job.id, token)) ==> Dead(store.run, token)
  {
    ghost var begun := store.run;
    var aborted := AwaitTurn(store, me, job, token, worker, turn.ticks, w, 2);
    ghost var awaited := store.run;
    if RunsIfHeld(begun, job.id, token) {
      StillRuns(begun, awaited, job, token);
    }
    var stopped := aborted || turn.abortedOutside;
    outcome, seen := FinishTurn(store, me, job, token, stopped, turn.ending, w, 2 + 2 * turn.ticks);
    HonestBefore(awaited, store.run, |begun.calls|, me, token, outcome);
    if !outcome.Lost? {
      EndedBefore(awaited, store.run, |begun.calls|, me, job, token, stopped, turn.ending, outcome);
      TimesStay(awaited, store.run, |begun.calls|, |awaited.calls|, me, Beat(job, token, worker));
      TimesOfOthers(store.run, |begun.calls|, |awaited.calls|, |store.run.calls|, me, Beat(job, token, worker));
    }
  }

  /** The whole truth about a claimed job: what Honest says of the settlement; lost only
      when the claim was gone; otherwise turned away for its reason, or run and ended
      by its ending. */
  ghost predicate Truthful(r: Run, n: nat, me: nat, job: Job, token: string, worker: Worker, turn: Turn,
                           outcome: Outcome)
    requires r.Shaped()
  {
    && Honest(r, n, me, token, outcome)
    && (outcome.Lost? ==> Gone(r, n, me, job.id, token))
    && (!outcome.Lost? ==>
          || TurnedAway(r, n, me, job, token, worker, outcome)
          || (MayRun(job, worker) && Ended(r, n, me, job, token, turn.abortedOutside, turn.ending, outcome)))
  }

  /** Run a claimed job. `enteredAt` is how many calls the store had seen when the
      turn was entered, None when it never was. */
  method ProcessJob(store: RelayStore, me: nat, job: Job, token: string, worker: Worker, turn: Turn, w: World)
    returns (outcome: Outcome, seen: Option<Job>, ghost enteredAt: Option<nat>, ghost startedAt: nat)
    requires store.Valid() && Handed(store.run, job, token)
    modifies store
    ensures store.Valid() && Grows(old(store.run), store.run)
    ensures Truthful(store.run, |old(store.run).calls|, me, job, token, worker, turn, outcome)
    ensures enteredAt.Some? ==>
              EnteredAfter(store.run, |old(store.run).calls|, me, job.id, token, worker.leaseMs, startedAt,
                           enteredAt.value)
    ensures seen == JobAt(store.run, |store.run.calls|, job.id)
    ensures enteredAt.None? && !outcome.Lost? ==>
              TurnedAway(store.run, |old(store.run).calls|, me, job, token, worker, outcome)
    ensures enteredAt.Some? ==> MayRun(job, worker)
    ensures enteredAt.Some? && !outcome.Lost? ==>
              Ended(store.run, |old(store.run).calls|, me, job, token, turn.abortedOutside, turn.ending, outcome)
              && Times(store.run, enteredAt.value, |store.run.calls|, me, Beat(job, token, worker)) == turn.ticks
    ensures Dead(old(store.run), token) ==> outcome.Lost? && enteredAt.None?
    ensures outcome.Lost? && enteredAt.Some? ==> Dead(store.run, token)
  {
    ghost var before := store.run;
    enteredAt := None;
    var early;
    early, seen, startedAt := BeginTurn(store, me, job, token, worker, w);
    if early.Some? {
      outcome := early.value;
      return;
    }
    ghost var begun := store.run;
    enteredAt := Some(|begun.calls|);
    GrownHanded(before, begun, job, token);
    outcome, seen := RunTurn(store, me, job, token, worker, turn, w);
    HonestBefore(begun, store.run, |before.calls|, me, token, outcome);
    if !outcome.Lost? {
      EndedBefore(begun, store.run, |before.calls|, me, job, token, turn.abortedOutside, turn.ending, outcome);
    }
    EnteredStays(begun, store.run, |before.calls|, me, job.id, token, worker.leaseMs, startedAt);
  }
}
