/** Claiming work: the inbox drain of a worker, and the synchronous dispatch that
    enqueues, claims or watches, and gives the claim up when its time is over. */
module RelayDispatch {
  import opened RelayTypes
  import opened StoreSteps
  import opened StoreRuns
  import opened JobLives
  import opened Fencing
  import opened Gates
  import opened StoreLaws
  import opened Dedup
  import opened RelayJobs
  import opened WorkerHistory
  import opened RelayWorker

  /** No operation on a job that `me` asked for since call n was accepted. */
  ghost predicate Idle(r: Run, n: nat, me: nat)
    requires r.Shaped()
  {
    forall k :: n <= k < |r.calls| && r.calls[k].caller == me ==> !(r.calls[k].op.OnJob? && r.results[k].changed)
  }

  lemma GrownIdle(r: Run, later: Run, n: nat, me: nat)
    requires r.Shaped() && later.Shaped() && Grows(r, later) && n <= |r.calls|
    requires Idle(r, n, me) && Idle(later, |r.calls|, me)
    ensures Idle(later, n, me)
  {
    forall k | n <= k < |later.calls| && later.calls[k].caller == me
      ensures !(later.calls[k].op.OnJob? && later.results[k].changed)
    {
      if k < |r.calls| {
        assert later.calls[k] == r.calls[k] && later.results[k] == r.results[k];
      }
    }
  }

  /** Since call n, `me` tried to claim this job and was refused. */
  ghost predicate TriedInVain(r: Run, n: nat, me: nat, id: string)
    requires r.Shaped()
  {
    exists k :: n <= k < |r.calls| && r.calls[k].caller == me && r.calls[k].op.OnJob? && r.calls[k].op.id == id
                && r.calls[k].op.act.ClaimOp? && !r.results[k].changed
  }

  lemma GrownTried(r: Run, later: Run, n: nat, me: nat, id: string)
    requires r.Shaped() && later.Shaped() && Grows(r, later) && TriedInVain(r, n, me, id)
    ensures TriedInVain(later, n, me, id)
  {
    var k :| n <= k < |r.calls| && r.calls[k].caller == me && r.calls[k].op.OnJob? && r.calls[k].op.id == id
             && r.calls[k].op.act.ClaimOp? && !r.results[k].changed;
    assert later.calls[k] == r.calls[k] && later.results[k] == r.results[k];
  }

  /** Call q is the look of `me` at this inbox, and it answered with these jobs. */
  ghost predicate Listed(r: Run, q: nat, me: nat, agent: string, inbox: seq<Job>)
    requires r.Shaped()
  {
    q < |r.calls| && r.calls[q].caller == me && r.calls[q].op == Inbox(agent, 5)
    && r.results[q].reply == ManyJobs(inbox)
  }

  /** A claim call made last, after interference only. */
  ghost predicate ClaimTried(r: Run, later: Run, me: nat, id: string, token: string) {
    && r.Valid() && later.Valid() && Grows(r, later) && |later.calls| > |r.calls|
    && var last := |later.calls| - 1;
       later.calls[last].caller == me && later.calls[last].op.OnJob? && later.calls[last].op.id == id
       && later.calls[last].op.act.ClaimOp? && later.calls[last].op.act.freshToken == token
       && forall k :: |r.calls| <= k < last ==> later.calls[k].caller != me
  }

  lemma ClaimAnswer(r: Run, later: Run, me: nat, id: string, token: string)
    requires ClaimTried(r, later, me, id, token)
    ensures PoliteSince(later, |r.calls|, me)
    ensures var last := |later.calls| - 1; var reply := later.results[last].reply;
            if reply.Taken? then
              reply.token == token && reply.job.id == id && Handed(later, reply.job, token)
              && ClaimsAt(later, last, id, token) && JobAt(later, last + 1, id) == Some(reply.job)
              && token in later.names[|later.calls|]
            else Idle(later, |r.calls|, me) && TriedInVain(later, |r.calls|, me, id)
  {
    var last := |later.calls| - 1;
    var reply := later.results[last].reply;
    JobActs(later, last, id);
    forall k | |r.calls| <= k < |later.calls| && later.calls[k].caller == me
      ensures PoliteAt(later, k)
    {
      assert k == last;
    }
    if reply.Taken? {
      FoundIsNamed(later, last + 1, id);
      ClaimDrawsFresh(later, last, id, token);
      assert ClaimsAt(later, last, id, token) && JobAt(later, last + 1, id) == Some(reply.job);
    }
  }

  method TryClaim(store: RelayStore, me: nat, id: string, workerId: string, leaseMs: int, seed: string, w: World,
                  i: nat)
    returns (job: Option<Job>, token: string)
    requires store.Valid() && seed != ""
    modifies store
    ensures store.Valid() && Grows(old(store.run), store.run) && |store.run.calls| > |old(store.run).calls|
    ensures PoliteSince(store.run, |old(store.run).calls|, me)
    ensures job.None? ==>
              Idle(store.run, |old(store.run).calls|, me) && TriedInVain(store.run, |old(store.run).calls|, me, id)
    ensures job.Some? ==>
              job.value.id == id && Handed(store.run, job.value, token)
                && JobAt(store.run, |store.run.calls|, id) == job
              && ClaimsAt(store.run, |store.run.calls| - 1, id, token)
              && Drew(store.run, |store.run.calls| - 1, me, id, ClaimOp(Some(workerId), Some(leaseMs), token))
              && token in store.run.names[|store.run.calls|]
              && forall k :: |old(store.run).calls| <= k < |store.run.calls| - 1 ==> store.run.calls[k].caller != me
    ensures CalledLast(old(store.run), store.run, me, OnJob(id, ClaimOp(Some(workerId), Some(leaseMs), token)))
  {
    ghost var before := store.run;
    store.Interfere(w.env(i), me);
    token := FreshName(store.minted, seed);
    var reply := store.Claim(me, id, Some(workerId), Some(leaseMs), token, w.clock(i), DEFAULT_OPTS);
    ClaimAnswer(before, store.run, me, id, token);
    job := if reply.Taken? then Some(reply.job) else None;
  }

  /** Call k is this accepted claim of the job by `me`. */
  ghost predicate Drew(r: Run, k: nat, me: nat, id: string, grant: JobOp)
    requires r.Shaped()
  {
    k < |r.calls| && r.calls[k].caller == me && r.calls[k].op == OnJob(id, grant) && grant.ClaimOp? && Acts(r, k, id)
  }

  lemma GrownDrew(r: Run, later: Run, k: nat, me: nat, id: string, grant: JobOp)
    requires r.Shaped() && later.Shaped() && Grows(r, later) && Drew(r, k, me, id, grant)
    ensures Drew(later, k, me, id, grant)
  {
    assert later.calls[k] == r.calls[k] && later.results[k] == r.results[k];
  }

  /** Since call n, `me` claimed this job at call c and told the truth about the run. */
  ghost predicate RanOne(r: Run, n: nat, me: nat, id: string, shift: Shift, outcome: Outcome, token: string, c: nat)
    requires r.Shaped()
  {
    && c >= n && Drew(r, c, me, id, shift.Grant(token)) && JobAt(r, c + 1, id).Some?
    && Truthful(r, c + 1, me, JobAt(r, c + 1, id).value, token, shift.worker, shift.turn, outcome)
  }

  /** Since call n, `me` tried to claim this job, and ran it if it could. */
  ghost predicate Attempted(r: Run, n: nat, me: nat, id: string, shift: Shift, outcome: Option<Outcome>,
                            token: string, c: nat)
    requires r.Shaped()
  {
    && PoliteSince(r, n, me)
    && (outcome.None? ==> Idle(r, n, me) && TriedInVain(r, n, me, id))
    && (outcome.Some? ==> RanOne(r, n, me, id, shift, outcome.value, token, c))
  }

  /** Claim one job and, when that succeeds, run it. */
  method ClaimAndRun(store: RelayStore, me: nat, id: string, shift: Shift, seed: string, w: World, i: nat, wTurn: World)
    returns (outcome: Option<Outcome>, ghost token: string, ghost claimedAt: nat)
    requires store.Valid() && seed != ""
    modifies store
    ensures store.Valid() && Grows(old(store.run), store.run)
    ensures Attempted(store.run, |old(store.run).calls|, me, id, shift, outcome, token, claimedAt)
  {
    ghost var before := store.run;
    var job, drawn := TryClaim(store, me, id, shift.workerId, shift.worker.leaseMs, seed, w, i);
    ghost var claimed := store.run;
    outcome, token, claimedAt := None, drawn, |claimed.calls| - 1;
    if job.Some? {
      var told, seen, entered, started := ProcessJob(store, me, job.value, drawn, shift.worker, shift.turn, wTurn);
      GrownPolite(claimed, store.run, |before.calls|, me);
      GrownDrew(claimed, store.run, claimedAt, me, id, shift.Grant(drawn));
      outcome := Some(told);
    }
  }

  /** After the look at call q, the first `tried` jobs of the inbox could not be
      claimed, and the next one ran if there is an outcome. */
  ghost predicate Drained(r: Run, n: nat, q: nat, me: nat, inbox: seq<Job>, tried: nat, shift: Shift,
                          outcome: Option<Outcome>, token: string, c: nat)
    requires r.Shaped()
  {
    && PoliteSince(r, n, me)
    && tried <= |inbox| && (forall i :: 0 <= i < tried ==> TriedInVain(r, q + 1, me, inbox[i].id))
    && (outcome.None? ==> Idle(r, n, me))
    && (outcome.Some? ==> tried < |inbox| && RanOne(r, q + 1, me, inbox[tried].id, shift, outcome.value, token, c))
  }

  lemma DrainedNext(r: Run, later: Run, n: nat, q: nat, me: nat, inbox: seq<Job>, i: nat, shift: Shift,
                    was: string, at: nat, outcome: Option<Outcome>, token: string, c: nat)
    requires r.Shaped() && later.Shaped() && Grows(r, later) && n <= q < |r.calls| && i < |inbox|
    requires Drained(r, n, q, me, inbox, i, shift, None, was, at)
    requires Attempted(later, |r.calls|, me, inbox[i].id, shift, outcome, token, c)
    ensures Drained(later, n, q, me, inbox, if outcome.None? then i + 1 else i, shift, outcome, token, c)
  {
    GrownPolite(r, later, n, me);
    forall k | 0 <= k < i
      ensures TriedInVain(later, q + 1, me, inbox[k].id)
    {
      GrownTried(r, later, q + 1, me, inbox[k].id);
    }
    if outcome.None? {
      GrownIdle(r, later, n, me);
    }
  }

  /** Look at the inbox: nothing is tried yet. */
  method Look(store: RelayStore, me: nat, agent: string, ghost shift: Shift, w: World) returns (inbox: seq<Job>)
    requires store.Valid()
    modifies store
    ensures store.Valid() && Grows(old(store.run), store.run) && |store.run.calls| > |old(store.run).calls|
    ensures Listed(store.run, |store.run.calls| - 1, me, agent, inbox)
    ensures Drained(store.run, |old(store.run).calls|, |store.run.calls| - 1, me, inbox, 0, shift, None, "", 0)
    ensures |inbox| <= 5 && forall j :: j in inbox ==> Addressed(j, agent)
  {
    store.Interfere(w.env(0), me);
    inbox := store.InboxFor(me, agent, 5, w.clock(0), DEFAULT_OPTS);
    InboxLaw(store.run, |store.run.calls| - 1, agent, 5);
  }

  /** Claim and run the first job of the inbox that can be claimed. Nothing is run
      only when the executor is unknown or every job listed was tried in vain; every job
      listed was queued and addressed to this agent (InboxLaw says which). `looked`
      and `claimedAt` are the positions of the look at the inbox and of the accepted
      claim. */
  method DrainOnce(store: RelayStore, me: nat, agent: string, known: bool, shift: Shift, seed: string, w: World,
                   wTurn: World)
    returns (outcome: Option<Outcome>, ghost token: string, ghost claimedAt: nat, ghost looked: nat,
             ghost inbox: seq<Job>, ghost tried: nat)
    requires store.Valid() && seed != ""
    modifies store
    ensures store.Valid() && Grows(old(store.run), store.run)
    ensures !known ==> outcome.None? && unchanged(store)
    ensures known ==>
              looked >= |old(store.run).calls| && Listed(store.run, looked, me, agent, inbox)
              && Drained(store.run, |old(store.run).calls|, looked, me, inbox, tried, shift, outcome, token, claimedAt)
    ensures outcome.None? && known ==> tried == |inbox|
    ensures |inbox| <= 5 && forall j :: j in inbox ==> Addressed(j, agent)
  {
    outcome, token, claimedAt, looked, inbox, tried := None, "", 0, 0, [], 0;
    if !known {
      return;
    }
    ghost var before := store.run;
    var listed := Look(store, me, agent, shift, w);
    ghost var seen := store.run;
    looked, inbox := |seen.calls| - 1, listed;
    var i := 0;
    while i < |listed| && outcome.None?
      invariant store.Valid() && Grows(seen, store.run)
      invariant Drained(store.run, |before.calls|, looked, me, inbox, tried, shift, outcome, token, claimedAt)
      invariant i <= |listed| && (outcome.None? ==> tried == i)
      decreases |listed| - i, outcome.None?
    {
      ghost var trying, was, at := store.run, token, claimedAt;
      outcome, token, claimedAt := ClaimAndRun(store, me, listed[i].id, shift, seed, w, i + 1, wTurn);
      DrainedNext(trying, store.run, |before.calls|, looked, me, inbox, tried, shift, was, at, outcome, token,
                  claimedAt);
      i := i + 1;
      tried := if outcome.None? then i else i - 1;
    }
  }

  // ---- dispatchAndWait -----------------------------------------------------

  /** What the wait limit does to a claim that is still alive; it decides by the
      caller's own task. */
  function CeilingOp(write: bool, token: string): JobOp {
    if write then ParkOp(token, Some("timeout: needs_recovery")) else ReleaseOp(token)
  }

  /** Whether the limit's park or release is accepted or refused, the token is dead
      afterwards. */
  lemma CeilingKills(r: Run, later: Run, me: nat, job: Job, token: string, write: bool)
    requires AskedLast(r, later, me, job.id, CeilingOp(write, token)) && Handed(r, job, token)
    ensures Dead(later, token)
  {
    var last := |later.calls| - 1;
    if Acts(later, last, job.id) {
      SettledIsDead(later, last, token);
    } else {
      RefusedIsDead(r, later, me, job, token, CeilingOp(write, token));
    }
  }

  /** The caller's flag covers what the stored task may do. */
  predicate Covers(write: bool, job: Job) {
    write || !job.payload.Writes()
  }

  lemma CeilingAsked(before: Run, looked: Run, later: Run, me: nat, job: Job, token: string, write: bool)
    requires before.Valid() && OnlyRead(before, looked, me) && Handed(before, job, token)
    requires AskedLast(looked, later, me, job.id, CeilingOp(write, token))
    ensures Dead(later, token)
    ensures Covers(write, job) ==> PoliteSince(later, |before.calls|, me)
  {
    ReadIsHarmless(before, looked, me, token);
    GrownHanded(before, looked, job, token);
    CeilingKills(looked, later, me, job, token, write);
    if Covers(write, job) {
      AskIsPolite(looked, later, me, job, token, CeilingOp(write, token));
      GrownPolite(looked, later, |before.calls|, me);
    }
  }

  /** From call n on, `me` settles this claim only by the wait limit's operation. */
  ghost predicate OnlyCeiling(r: Run, n: nat, me: nat, id: string, token: string, write: bool)
    requires r.Shaped()
  {
    forall k :: n <= k < |r.calls| && r.calls[k].caller == me && SettlesAt(r, k, token) ==>
                  r.calls[k].op == OnJob(id, CeilingOp(write, token))
  }

  /** If the job still carries our claim, settle it, so that nothing keeps it alive. */
  method EndClaim(store: RelayStore, me: nat, job: Job, token: string, write: bool, w: World, i: nat)
    requires store.Valid() && Handed(store.run, job, token)
    modifies store
    ensures store.Valid() && Grows(old(store.run), store.run)
    ensures Dead(store.run, token)
    ensures OnlyCeiling(store.run, |old(store.run).calls|, me, job.id, token, write)
    ensures Covers(write, job) ==> PoliteSince(store.run, |old(store.run).calls|, me)
  {
    ghost var before := store.run;
    var cur := Peek(store, me, job.id, w, i);
    ghost var looked := store.run;
    if cur.Some? && !cur.value.state.Terminal() && cur.value.claim.Some? && cur.value.claim.value.token == token {
      var ok := Ask(store, me, job, token, CeilingOp(write, token), w, i + 1);
      CeilingAsked(before, looked, store.run, me, job, token, write);
    } else {
      ReadIsHarmless(before, looked, me, token);
      GrownHanded(before, looked, job, token);
      NotOursIsDead(looked, job, token);
    }
  }

  /** `me` had its turn entered after an accepted startRunning and heartbeat, and by the
      end of this run had renewed the lease at each of these ticks, if the token was
      still alive, and settled nothing. */
  ghost predicate LeftRunning(r: Run, n: nat, me: nat, id: string, token: string, leaseMs: int, ticks: nat)
    requires r.Shaped()
  {
    && PoliteSince(r, n, me) && Unsettled(r, n, me, token)
    && exists s, p :: EnteredAfter(r, n, me, id, token, leaseMs, s, p)
                      && (Dead(r, token)
                          || Times(r, p, |r.calls|, me, OnJob(id, HeartbeatOp(token, Some(leaseMs)))) == ticks)
  }

  /** How our own invocation stood at the end of this run: it had told its outcome
      truthfully, or its turn was still running. */
  ghost predicate Stood(r: Run, n: nat, me: nat, job: Job, token: string, shift: Shift, told: Option<Outcome>)
    requires r.Shaped()
  {
    if told.Some? then Truthful(r, n, me, job, token, shift.worker, shift.turn, told.value)
    else MayRun(job, shift.worker) && LeftRunning(r, n, me, job.id, token, shift.worker.leaseMs, shift.turn.ticks)
  }

  /** Run the job until it is settled or, when the wait limit comes first, until the
      limit; the turn then goes on in the background with the same claim. */
  method RunUntilLimit(store: RelayStore, me: nat, job: Job, token: string, finishes: bool, shift: Shift,
                       w: World)
    returns (told: Option<Outcome>)
    requires store.Valid() && Handed(store.run, job, token)
    modifies store
    ensures store.Valid() && Grows(old(store.run), store.run) && Handed(store.run, job, token)
    ensures Stood(store.run, |old(store.run).calls|, me, job, token, shift, told)
    ensures finishes ==> told.Some?
  {
    ghost var before := store.run;
    if finishes {
      var outcome, last, entered, started := ProcessJob(store, me, job, token, shift.worker, shift.turn, w);
      GrownHanded(before, store.run, job, token);
      return Some(outcome);
    }
    var early, last, startedAt := BeginTurn(store, me, job, token, shift.worker, w);
    ghost var begun := store.run;
    GrownHanded(before, begun, job, token);
    if early.Some? {
      return early;
    }
    var aborted := AwaitTurn(store, me, job, token, shift.worker, shift.turn.ticks, w, 2);
    EnteredStays(begun, store.run, |before.calls|, me, job.id, token, shift.worker.leaseMs, startedAt);
    GrownPolite(begun, store.run, |before.calls|, me);
    GrownUnsettled(begun, store.run, |before.calls|, me, token);
    told := None;
  }

  /** After our own claim: run the job until it is settled or the wait limit comes, then
      end the claim and read the job. `left` is the run when the waiting was over; what
      a turn in the background calls afterwards is among the calls of the others. */
  method RunOrLeave(store: RelayStore, me: nat, job: Job, token: string, write: bool, finishes: bool, shift: Shift,
                    w: World, i: nat, wTurn: World)
    returns (seen: Option<Job>, late: bool, ghost left: Run, ghost told: Option<Outcome>)
    requires store.Valid() && Handed(store.run, job, token)
    modifies store
    ensures store.Valid() && left.Valid() && Grows(old(store.run), left) && Grows(left, store.run)
    ensures Stood(left, |old(store.run).calls|, me, job, token, shift, told) && (finishes ==> told.Some?)
    ensures OnlyCeiling(store.run, |left.calls|, me, job.id, token, write) && Dead(store.run, token)
    ensures Covers(write, job) ==> PoliteSince(store.run, |old(store.run).calls|, me)
    ensures seen == JobAt(store.run, |store.run.calls|, job.id)
    ensures late <==> told.None? || shift.turn.abortedOutside
  {
    ghost var before := store.run;
    var outcome := RunUntilLimit(store, me, job, token, finishes, shift, wTurn);
    told, left, late := outcome, store.run, outcome.None? || shift.turn.abortedOutside;
    EndClaim(store, me, job, token, write, w, i);
    ghost var ended := store.run;
    seen := Peek(store, me, job.id, w, i + 2);
    DeadGrows(ended, store.run, token);
    ReadAfterLimit(left, ended, store.run, me, job.id, token, write);
    if Covers(write, job) {
      GrownPolite(left, ended, |before.calls|, me);
      GrownPolite(ended, store.run, |before.calls|, me);
    }
  }

  lemma ReadAfterLimit(left: Run, ended: Run, later: Run, me: nat, id: string, token: string, write: bool)
    requires left.Valid() && ended.Valid() && Grows(left, ended) && OnlyRead(ended, later, me)
    requires OnlyCeiling(ended, |left.calls|, me, id, token, write)
    ensures OnlyCeiling(later, |left.calls|, me, id, token, write)
    ensures PoliteSince(later, |ended.calls|, me)
  {
    ReadIsHarmless(ended, later, me, token);
    forall k | |left.calls| <= k < |later.calls| && later.calls[k].caller == me && SettlesAt(later, k, token)
      ensures later.calls[k].op == OnJob(id, CeilingOp(write, token))
    {
      if k < |ended.calls| {
        assert SettlesAt(ended, k, token);
      }
    }
  }

  /** Our own claim: the shift that drew it, its token, the job it was given for, the
      call that claimed it, the run when the waiting was over, and the outcome told by
      then, if any. */
  datatype OwnClaim =
    OwnClaim(shift: Shift, token: string, job: Job, claimedAt: nat, left: Run, told: Option<Outcome>)

  /** How our own claim was settled: truthfully by the invocation, or else only by the
      wait limit's operation; and no live claim carries the token any more. */
  ghost predicate Accounts(r: Run, n: nat, me: nat, write: bool, c: OwnClaim)
    requires r.Shaped()
  {
    && n <= c.claimedAt < |c.left.calls| && c.left.Valid() && Grows(c.left, r)
    && Drew(r, c.claimedAt, me, c.job.id, c.shift.Grant(c.token))
    && Handed(r, c.job, c.token) && Dead(r, c.token)
    && Stood(c.left, c.claimedAt + 1, me, c.job, c.token, c.shift, c.told)
    && OnlyCeiling(r, |c.left.calls|, me, c.job.id, c.token, write)
  }

  datatype Summary = Summary(jobId: string, deduped: bool, timedOut: bool, job: Option<Job>)

  predicate Finished(job: Option<Job>) {
    job.Some? && job.value.state.Terminal()
  }

  lemma StillTheRequest(r: Run, later: Run, id: string, requestId: string)
    requires r.Valid() && later.Valid() && Grows(r, later)
    requires JobAt(r, |r.calls|, id).Some? && JobAt(r, |r.calls|, id).value.requestId == requestId
    ensures var job := JobAt(later, |later.calls|, id); job.Some? ==> job.value.requestId == requestId
  {
    assert JobAt(later, |r.calls|, id) == JobAt(r, |r.calls|, id);
    if JobAt(later, |later.calls|, id).Some? {
      TaskKept(later, |r.calls|, |later.calls|, id);
    }
  }

  /** Call k is the enqueue of this request by `me`, with policy park exactly when the
      task writes, and the answer is its reply; a new job is as asked for. */
  ghost predicate Asked(r: Run, n: nat, k: nat, me: nat, requestId: string, to: string, task: Payload, ttl: Option<int>,
                        answer: Reply)
    requires r.Shaped()
  {
    && n <= k < |r.calls| && r.calls[k].caller == me && r.calls[k].op.Enqueue?
    && r.results[k].reply == answer && answer.Enqueued?
    && var op := r.calls[k].op;
       && op.requestId == requestId && op.to == Some(to) && op.from.None? && op.payload == task && op.ttl == ttl
       && op.maxAttempts.None? && (op.policy.Park? <==> task.Writes())
       && (!answer.deduped ==> IsNewJob(answer.job, r.calls[k]))
  }

  lemma GrownAsked(r: Run, later: Run, n: nat, k: nat, me: nat, requestId: string, to: string, task: Payload,
                   ttl: Option<int>, answer: Reply)
    requires r.Shaped() && later.Shaped() && Grows(r, later) && Asked(r, n, k, me, requestId, to, task, ttl, answer)
    ensures Asked(later, n, k, me, requestId, to, task, ttl, answer)
  {
    assert later.calls[k] == r.calls[k] && later.results[k] == r.results[k];
  }

  lemma Submitted(before: Run, r: Run, me: nat, op: Op)
    requires CalledLast(before, r, me, op) && op.Enqueue?
    ensures OnlyRead(before, r, me)
    ensures var reply := r.results[|r.calls| - 1].reply;
            reply.Enqueued? && reply.job.requestId == op.requestId
            && JobAt(r, |r.calls|, reply.jobId) == Some(reply.job)
            && (!reply.deduped ==> IsNewJob(reply.job, r.calls[|r.calls| - 1]))
  {
    EnqueueReply(r, |r.calls| - 1, op.requestId);
  }

  /** Enqueue under the policy that the task's write flag asks for. */
  method Submit(store: RelayStore, me: nat, requestId: string, to: string, task: Payload, ttl: Option<int>,
                seed: string, w: World)
    returns (reply: Reply)
    requires store.Valid() && requestId != "" && seed != ""
    modifies store
    ensures store.Valid() && OnlyRead(old(store.run), store.run, me)
    ensures |store.run.calls| > |old(store.run).calls|
    ensures Asked(store.run, |old(store.run).calls|, |store.run.calls| - 1, me, requestId, to, task, ttl, reply)
    ensures CalledLast(old(store.run), store.run, me, store.run.calls[|store.run.calls| - 1].op)
    ensures reply.job.requestId == requestId && JobAt(store.run, |store.run.calls|, reply.jobId) == Some(reply.job)
  {
    ghost var before := store.run;
    store.Interfere(w.env(0), me);
    var freshId := FreshName(store.minted, seed);
    var policy := if task.Writes() then Policy.Park else Requeue;
    var answer := store.Enqueue(me, requestId, Some(to), None, task, ttl, None, policy, freshId, w.clock(0),
                                DEFAULT_OPTS);
    Submitted(before, store.run, me, store.run.calls[|store.run.calls| - 1].op);
    reply := answer.value;
  }

  lemma ClaimAccounted(before: Run, tried: Run, later: Run, me: nat, write: bool, c: OwnClaim)
    requires before.Shaped() && tried.Shaped() && c.left.Valid() && later.Shaped()
    requires Grows(before, tried) && Grows(tried, c.left) && Grows(c.left, later)
    requires |before.calls| <= c.claimedAt == |tried.calls| - 1 && PoliteSince(tried, |before.calls|, me)
    requires Drew(tried, c.claimedAt, me, c.job.id, c.shift.Grant(c.token)) && Handed(tried, c.job, c.token)
    requires Dead(later, c.token) && Stood(c.left, |tried.calls|, me, c.job, c.token, c.shift, c.told)
    requires OnlyCeiling(later, |c.left.calls|, me, c.job.id, c.token, write)
    requires Covers(write, c.job) ==> PoliteSince(later, |tried.calls|, me)
    ensures Accounts(later, |before.calls|, me, write, c)
    ensures Covers(write, c.job) ==> PoliteSince(later, |before.calls|, me)
  {
    GrownHanded(tried, later, c.job, c.token);
    GrownDrew(tried, later, c.claimedAt, me, c.job.id, c.shift.Grant(c.token));
    if Covers(write, c.job) {
      GrownPolite(tried, later, |before.calls|, me);
    }
  }

  /** What the caller of a dispatch may rely on: it is shown the job as stored; its own
      claim, if it got one, is accounted for and over; without one it had no operation
      accepted, and is late exactly when the job is not settled; and it was polite if
      its task's flag covers the stored task. */
  ghost predicate Waited(r: Run, n: nat, me: nat, write: bool, id: string, seen: Option<Job>, late: bool,
                         claim: Option<OwnClaim>)
    requires r.Shaped()
  {
    && seen == JobAt(r, |r.calls|, id)
    && (claim.Some? ==>
          claim.value.job.id == id && Accounts(r, n, me, write, claim.value)
          && (late <==> claim.value.told.None? || claim.value.shift.turn.abortedOutside))
    && (claim.None? ==>
          Idle(r, n, me) && (late <==> !Finished(seen)))
    && (claim.None? || Covers(write, claim.value.job) ==> PoliteSince(r, n, me))
  }

  /** Without a claim of its own `me` had asked for one in vain, and gave up only after
      all its looks. */
  ghost predicate Watched(r: Run, n: nat, me: nat, id: string, late: bool, polls: nat)
    requires r.Shaped() && n <= |r.calls|
  {
    && TriedInVain(r, n, me, id)
    && (late ==> Times(r, n, |r.calls|, me, StoreSteps.GetJob(id)) == polls + 1)
  }

  lemma WatchedSince(r: Run, middle: Run, later: Run, me: nat, first: Op, id: string, late: bool, polls: nat)
    requires CalledLast(r, middle, me, first) && first != StoreSteps.GetJob(id) && later.Shaped()
             && Grows(middle, later)
    requires Watched(later, |middle.calls|, me, id, late, polls)
    ensures Watched(later, |r.calls|, me, id, late, polls)
  {
    TimesSince(r, middle, later, me, first, StoreSteps.GetJob(id));
  }

  lemma WaitedBefore(r: Run, later: Run, n: nat, me: nat, write: bool, id: string, seen: Option<Job>,
                     late: bool, claim: Option<OwnClaim>)
    requires r.Shaped() && later.Shaped() && Grows(r, later) && n <= |r.calls| && PoliteSince(r, n, me)
             && Idle(r, n, me)
    requires Waited(later, |r.calls|, me, write, id, seen, late, claim)
    ensures Waited(later, n, me, write, id, seen, late, claim)
  {
    if claim.None? {
      GrownIdle(r, later, n, me);
    }
    if PoliteSince(later, |r.calls|, me) {
      GrownPolite(r, later, n, me);
    }
  }

  /** Run the job that we claimed by the last call, after `before`. */
  method RunOwned(store: RelayStore, me: nat, job: Job, token: string, write: bool, finishes: bool, shift: Shift,
                  w: World, wTurn: World, ghost before: Run)
    returns (seen: Option<Job>, late: bool, ghost claim: Option<OwnClaim>)
    requires store.Valid() && Handed(store.run, job, token) && before.Shaped() && Grows(before, store.run)
    requires |before.calls| < |store.run.calls| && PoliteSince(store.run, |before.calls|, me)
    requires Drew(store.run, |store.run.calls| - 1, me, job.id, shift.Grant(token))
    modifies store
    ensures store.Valid() && Grows(old(store.run), store.run)
    ensures Waited(store.run, |before.calls|, me, write, job.id, seen, late, claim)
    ensures claim.Some? ==> claim.value.shift == shift
  {
    ghost var tried := store.run;
    ghost var left, told;
    seen, late, left, told := RunOrLeave(store, me, job, token, write, finishes, shift, w, 2, wTurn);
    ghost var own := OwnClaim(shift, token, job, |tried.calls| - 1, left, told);
    claim := Some(own);
    ClaimAccounted(before, tried, store.run, me, write, own);
  }

  /** Claim the job and run it or, when it cannot be claimed, watch it until it
      settles or the deadline has passed after `polls` looks. */
  method RunOrWatch(store: RelayStore, me: nat, id: string, write: bool, shift: Shift, seed: string, finishes: bool,
                    polls: nat, w: World, wTurn: World)
    returns (seen: Option<Job>, late: bool, ghost claim: Option<OwnClaim>)
    requires store.Valid() && seed != ""
    modifies store
    ensures store.Valid() && Grows(old(store.run), store.run)
    ensures Waited(store.run, |old(store.run).calls|, me, write, id, seen, late, claim)
    ensures claim.None? ==> Watched(store.run, |old(store.run).calls|, me, id, late, polls)
    ensures claim.Some? ==> claim.value.shift == shift
  {
    ghost var before := store.run;
    var job, token := TryClaim(store, me, id, shift.workerId, shift.worker.leaseMs, seed, w, 1);
    ghost var tried := store.run;
    if job.Some? {
      seen, late, claim := RunOwned(store, me, job.value, token, write, finishes, shift, w, wTurn, before);
      return;
    }
    claim := None;
    seen, late := Watch(store, me, id, polls, w, 2);
    WaitedBefore(tried, store.run, |before.calls|, me, write, id, seen, late, claim);
    GrownTried(tried, store.run, |before.calls|, me, id);
    TimesSince(before, tried, store.run, me, OnJob(id, shift.Grant(token)), StoreSteps.GetJob(id));
  }

  /** `me` enqueued the request, and the summary is of the job it was answered with; with
      no claim of its own that job was settled already, or was asked for in vain and
      watched. */
  ghost predicate Dispatched(r: Run, n: nat, me: nat, requestId: string, to: string, task: Payload, ttl: Option<int>,
                             s: Summary, claimed: bool, polls: nat)
    requires r.Shaped() && n <= |r.calls|
  {
    exists k: nat, answer :: Asked(r, n, k, me, requestId, to, task, ttl, answer)
                             && s.jobId == answer.jobId && s.deduped == answer.deduped
                             && (claimed || Finished(Some(answer.job)) || Watched(r, n, me, s.jobId, s.timedOut, polls))
  }

  lemma DispatchedLater(before: Run, enqueued: Run, later: Run, me: nat, requestId: string, to: string, task: Payload,
                        ttl: Option<int>, answer: Reply, s: Summary, claimed: bool, polls: nat)
    requires |enqueued.calls| > 0 && later.Shaped() && Grows(enqueued, later)
    requires CalledLast(before, enqueued, me, enqueued.calls[|enqueued.calls| - 1].op)
    requires Asked(enqueued, |before.calls|, |enqueued.calls| - 1, me, requestId, to, task, ttl, answer)
    requires s.jobId == answer.jobId && s.deduped == answer.deduped
    requires claimed || Watched(later, |enqueued.calls|, me, s.jobId, s.timedOut, polls)
    ensures Dispatched(later, |before.calls|, me, requestId, to, task, ttl, s, claimed, polls)
  {
    GrownAsked(enqueued, later, |before.calls|, |enqueued.calls| - 1, me, requestId, to, task, ttl, answer);
    if !claimed {
      WatchedSince(before, enqueued, later, me, enqueued.calls[|enqueued.calls| - 1].op, s.jobId, s.timedOut, polls);
    }
  }

  /** All that a dispatch promises of its summary. */
  ghost predicate Summarizes(r: Run, n: nat, me: nat, requestId: string, to: string, task: Payload, ttl: Option<int>,
                             polls: nat, s: Summary, claim: Option<OwnClaim>)
    requires r.Shaped() && n <= |r.calls|
  {
    && (s.job.Some? ==> s.job.value.requestId == requestId)
    && Waited(r, n, me, task.Writes(), s.jobId, s.job, s.timedOut, claim)
    && Dispatched(r, n, me, requestId, to, task, ttl, s, claim.Some?, polls)
  }

  lemma SummarizedLater(before: Run, enqueued: Run, later: Run, me: nat, requestId: string, to: string, task: Payload,
                        ttl: Option<int>, polls: nat, answer: Reply, s: Summary, claim: Option<OwnClaim>)
    requires |enqueued.calls| > 0 && later.Valid() && Grows(enqueued, later) && OnlyRead(before, enqueued, me)
    requires CalledLast(before, enqueued, me, enqueued.calls[|enqueued.calls| - 1].op)
    requires Asked(enqueued, |before.calls|, |enqueued.calls| - 1, me, requestId, to, task, ttl, answer)
    requires answer.job.requestId == requestId && JobAt(enqueued, |enqueued.calls|, answer.jobId) == Some(answer.job)
    requires s.jobId == answer.jobId && s.deduped == answer.deduped
    requires Waited(later, |enqueued.calls|, me, task.Writes(), s.jobId, s.job, s.timedOut, claim)
    requires claim.Some? || Watched(later, |enqueued.calls|, me, s.jobId, s.timedOut, polls)
    ensures Summarizes(later, |before.calls|, me, requestId, to, task, ttl, polls, s, claim)
  {
    ReadIsHarmless(before, enqueued, me, "");
    StillTheRequest(enqueued, later, s.jobId, requestId);
    WaitedBefore(enqueued, later, |before.calls|, me, task.Writes(), s.jobId, s.job, s.timedOut, claim);
    DispatchedLater(before, enqueued, later, me, requestId, to, task, ttl, answer, s, claim.Some?, polls);
  }

  lemma SummarizedAtOnce(before: Run, enqueued: Run, me: nat, requestId: string, to: string, task: Payload,
                         ttl: Option<int>, polls: nat, answer: Reply)
    requires OnlyRead(before, enqueued, me) && |enqueued.calls| > |before.calls|
    requires Asked(enqueued, |before.calls|, |enqueued.calls| - 1, me, requestId, to, task, ttl, answer)
    requires answer.job.requestId == requestId && JobAt(enqueued, |enqueued.calls|, answer.jobId) == Some(answer.job)
    requires answer.job.state.Terminal()
    ensures Summarizes(enqueued, |before.calls|, me, requestId, to, task, ttl, polls,
                       Summary(answer.jobId, answer.deduped, false, Some(answer.job)), None)
  {
    ReadIsHarmless(before, enqueued, me, "");
  }

  /** Enqueue; when the job is not settled yet, claim and run it, or watch it. None:
      the source throws (unknown executor, no request id) and touches nothing. */
  method DispatchAndWait(store: RelayStore, me: nat, requestId: string, to: string, known: bool, task: Payload,
                         ttl: Option<int>, shift: Shift, seed: string, finishes: bool, polls: nat, w: World,
                         wTurn: World)
    returns (summary: Option<Summary>, ghost claim: Option<OwnClaim>)
    requires store.Valid() && seed != ""
    modifies store
    ensures store.Valid() && Grows(old(store.run), store.run)
    ensures summary.None? <==> !known || requestId == ""
    ensures summary.None? ==> claim.None? && unchanged(store)
    ensures summary.Some? ==>
              Summarizes(store.run, |old(store.run).calls|, me, requestId, to, task, ttl, polls,
                         summary.value, claim)
    ensures claim.Some? ==> claim.value.shift == shift
  {
    summary, claim := None, None;
    if !known || requestId == "" {
      return;
    }
    ghost var before := store.run;
    var queued := Submit(store, me, requestId, to, task, ttl, seed, w);
    ghost var enqueued := store.run;
    if queued.job.state.Terminal() {
      summary := Some(Summary(queued.jobId, queued.deduped, false, Some(queued.job)));
      SummarizedAtOnce(before, enqueued, me, requestId, to, task, ttl, polls, queued);
      return;
    }
    var seen, late;
    seen, late, claim := RunOrWatch(store, me, queued.jobId, task.Writes(), shift, seed, finishes, polls, w, wTurn);
    summary := Some(Summary(queued.jobId, queued.deduped, late, seen));
    SummarizedLater(before, enqueued, store.run, me, requestId, to, task, ttl, polls, queued,
                    summary.value, claim);
  }

  /** Poll until the job is settled; late when the deadline came first. */
  method Watch(store: RelayStore, me: nat, id: string, polls: nat, w: World, i: nat)
    returns (seen: Option<Job>, late: bool)
    requires store.Valid()
    modifies store
    ensures store.Valid() && OnlyRead(old(store.run), store.run, me)
    ensures PoliteSince(store.run, |old(store.run).calls|, me)
    ensures late <==> !Finished(seen)
    ensures late ==> Times(store.run, |old(store.run).calls|, |store.run.calls|, me, StoreSteps.GetJob(id)) == polls + 1
    ensures seen == JobAt(store.run, |store.run.calls|, id)
  {
    ghost var before := store.run;
    var p := 0;
    while true
      invariant p <= polls && store.Valid() && OnlyRead(before, store.run, me)
      invariant Times(store.run, |before.calls|, |store.run.calls|, me, StoreSteps.GetJob(id)) == p
      decreases polls - p
    {
      ghost var looking := store.run;
      seen := Peek(store, me, id, w, i + p);
      TimesCalled(looking, store.run, |before.calls|, me, StoreSteps.GetJob(id), StoreSteps.GetJob(id));
      ReadIsHarmless(before, store.run, me, "");
      if Finished(seen) {
        return seen, false;
      }
      if p == polls {
        return seen, true;
      }
      p := p + 1;
    }
  }
}
