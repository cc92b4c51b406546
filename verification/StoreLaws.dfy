/** What each call on the store does, in states, fields and numbers. In every law `k`
    is the job as this call's expiry leaves it (ExpiresTo), and the job after the
    call is the one the store then holds. */
module StoreLaws {
  import opened RelayTypes
  import opened JobSweep
  import opened StoreSteps
  import opened StoreRuns
  import opened JobLives

  /** Call i addresses this job with this operation, and finds it expired to k. */
  ghost predicate Finds(r: Run, i: nat, act: JobOp, k: Job) {
    && r.Valid() && i < |r.calls| && r.calls[i].op == OnJob(k.id, act)
    && JobAt(r, i, k.id).Some? && ExpiresTo(JobAt(r, i, k.id).value, r.calls[i].now, k)
  }

  predicate StillOpen(k: Job) {
    k.state.Queued? || k.state.Claimed? || k.state.Running?
  }

  /** In flight under a claim with this token. */
  predicate HeldUnder(k: Job, token: string) {
    (k.state.Claimed? || k.state.Running?) && k.claim.Some? && k.claim.value.token == token
  }

  /** Accepted: the store then holds this job, and the reply shows it. */
  ghost predicate Becomes(r: Run, i: nat, after: Job)
    requires r.Shaped() && i < |r.calls|
  {
    Acts(r, i, after.id) && JobAt(r, i + 1, after.id) == Some(after) && r.results[i].reply == Accepted(after)
  }

  /** Refused: the store then holds the job as expired, or has pruned it when it is
      over, and the reply says why. */
  ghost predicate Rejects(r: Run, i: nat, k: Job, reason: Reason, gone: Reason)
    requires r.Shaped() && i < |r.calls|
  {
    && !Acts(r, i, k.id)
    && if JobAt(r, i + 1, k.id).Some? then
         JobAt(r, i + 1, k.id) == Some(k) && r.results[i].reply == Refused(reason, Some(k))
       else IsOver(k) && r.results[i].reply == Refused(gone, None)
  }

  /** Why an operation that ends a claim is refused. */
  function WhyNot(k: Job): Reason {
    if !StillOpen(k) then AlreadyTerminal else if k.state.Queued? then NotClaimed else StaleToken
  }

  function LeaseEnd(now: int, leaseMs: Option<int>): Option<int> {
    match leaseMs
    case Some(ms) => Some(now + ms)
    case None => None
  }

  lemma Decided(r: Run, i: nat, act: JobOp, k: Job)
    requires Finds(r, i, act, k)
    ensures JobOk(k) && !(IsOver(k) && Act(k, r.calls[i].now, act).changed)
    ensures Acts(r, i, k.id) == Act(k, r.calls[i].now, act).changed
    ensures if JobAt(r, i + 1, k.id).Some? then
              JobAt(r, i + 1, k.id) == Some(Act(k, r.calls[i].now, act).job)
              && r.results[i].reply == Act(k, r.calls[i].now, act).reply
            else IsOver(k) && r.results[i].reply == Missing(act)
  {
    var j := JobAt(r, i, k.id).value;
    ExpiryTable(j, r.calls[i].now, k);
    FoundIsNamed(r, i, k.id);
    SweepJobOk(j, r.calls[i].now);
    JobActs(r, i, k.id);
    JobNext(r, i, k.id);
    OverIsFinal(k, r.calls[i].now, act);
  }

  lemma OverIsFinal(k: Job, now: int, act: JobOp)
    ensures IsOver(k) ==> !Act(k, now, act).changed
  {
  }

  // ---- operations on one job -----------------------------------------------

  lemma ClaimLaw(r: Run, i: nat, worker: Option<string>, leaseMs: Option<int>, token: string, k: Job)
    requires Finds(r, i, ClaimOp(worker, leaseMs, token), k)
    ensures var now := r.calls[i].now;
            var after := k.(state := Claimed, claim := Some(Claim(worker, token, now, LeaseEnd(now, leaseMs))),
                            updatedAt := now);
            if k.state.Queued? then
              Acts(r, i, k.id) && JobAt(r, i + 1, k.id) == Some(after) && r.results[i].reply == Taken(after, token)
            else
              !Acts(r, i, k.id) && r.results[i].reply == NotTaken
              && (JobAt(r, i + 1, k.id) == Some(k) || (JobAt(r, i + 1, k.id).None? && IsOver(k)))
  {
    Decided(r, i, ClaimOp(worker, leaseMs, token), k);
  }

  lemma StartLaw(r: Run, i: nat, token: string, k: Job)
    requires Finds(r, i, StartOp(token), k)
    ensures if k.state.Claimed? && HeldUnder(k, token) then
              Becomes(r, i, k.(state := Running, updatedAt := r.calls[i].now))
            else Rejects(r, i, k, Unexplained, Unexplained)
  {
    Decided(r, i, StartOp(token), k);
  }

  lemma HeartbeatLaw(r: Run, i: nat, token: string, leaseMs: Option<int>, k: Job)
    requires Finds(r, i, HeartbeatOp(token, leaseMs), k)
    ensures var now := r.calls[i].now;
            if HeldUnder(k, token) then
              Becomes(r, i, k.(claim := Some(k.claim.value.(expiresAt := LeaseEnd(now, leaseMs))), updatedAt := now))
            else Rejects(r, i, k, Unexplained, Unexplained)
  {
    Decided(r, i, HeartbeatOp(token, leaseMs), k);
  }

  lemma ReleaseLaw(r: Run, i: nat, token: string, k: Job)
    requires Finds(r, i, ReleaseOp(token), k)
    ensures if HeldUnder(k, token) then Becomes(r, i, k.(state := Queued, claim := None, updatedAt := r.calls[i].now))
            else Rejects(r, i, k, Unexplained, Unexplained)
  {
    Decided(r, i, ReleaseOp(token), k);
  }

  /** A job already completed under this token answers ok and is left alone. */
  lemma CompleteLaw(r: Run, i: nat, token: string, result: Option<string>, k: Job)
    requires Finds(r, i, CompleteOp(token, result), k)
    ensures var now := r.calls[i].now;
            if HeldUnder(k, token) then
              Becomes(r, i, k.(state := Completed, result := result, completedBy := Some(token), claim := None,
                               terminalAt := Some(now), updatedAt := now))
            else if k.state.Completed? && k.completedBy == Some(token) && JobAt(r, i + 1, k.id).Some? then
              !Acts(r, i, k.id) && JobAt(r, i + 1, k.id) == Some(k) && r.results[i].reply == Accepted(k)
            else Rejects(r, i, k, WhyNot(k), NotFound)
  {
    Decided(r, i, CompleteOp(token, result), k);
  }

  /** A failure costs an attempt; the job is queued again exactly when a retry is asked
      for and an attempt is left. */
  lemma FailLaw(r: Run, i: nat, token: string, error: Option<string>, retry: bool, k: Job)
    requires Finds(r, i, FailOp(token, error, retry), k)
    ensures var now := r.calls[i].now;
            if !HeldUnder(k, token) then Rejects(r, i, k, WhyNot(k), NotFound)
            else if retry && k.attempts + 1 < k.maxAttempts then
              Becomes(r, i, k.(state := Queued, attempts := k.attempts + 1, claim := None, updatedAt := now))
            else
              Becomes(r, i, k.(state := Failed, attempts := k.attempts + 1, error := error, claim := None,
                               terminalAt := Some(now), updatedAt := now))
  {
    Decided(r, i, FailOp(token, error, retry), k);
  }

  /** Cancelling needs no token. */
  lemma CancelLaw(r: Run, i: nat, k: Job)
    requires Finds(r, i, CancelOp, k)
    ensures var now := r.calls[i].now;
            if StillOpen(k) then
              Becomes(r, i, k.(state := Cancelled, claim := None, terminalAt := Some(now), updatedAt := now))
            else Rejects(r, i, k, AlreadyTerminal, NotFound)
  {
    Decided(r, i, CancelOp, k);
  }

  lemma ParkLaw(r: Run, i: nat, token: string, error: Option<string>, k: Job)
    requires Finds(r, i, ParkOp(token, error), k)
    ensures var now := r.calls[i].now;
            if HeldUnder(k, token) then
              Becomes(r, i, k.(state := NeedsRecovery, error := if error.Some? then error else Some(PARKED),
                               claim := None, terminalAt := Some(now), updatedAt := now))
            else Rejects(r, i, k, WhyNot(k), NotFound)
  {
    Decided(r, i, ParkOp(token, error), k);
  }

  lemma RecoverLaw(r: Run, i: nat, k: Job)
    requires Finds(r, i, RecoverOp, k)
    ensures if k.state.NeedsRecovery? then
              Becomes(r, i, k.(state := Queued, attempts := 0, error := None, claim := None, terminalAt := None,
                               updatedAt := r.calls[i].now))
            else Rejects(r, i, k, Unexplained, Unexplained)
  {
    Decided(r, i, RecoverOp, k);
  }

  /** A review is predeclared from claimed and self-flagged from running, and nothing
      else; the refusals come in this order. */
  lemma ReviewLaw(r: Run, i: nat, token: string, reason: Option<string>, kind: ReviewKind, result: Option<string>,
                  k: Job)
    requires Finds(r, i, ReviewOp(token, reason, kind, result), k)
    ensures var now := r.calls[i].now;
            var fits := (kind.Predeclared? && k.state.Claimed?) || (kind.SelfFlagged? && k.state.Running?);
            if fits && HeldUnder(k, token) then
              Becomes(r, i, k.(state := NeedsReview, riskReason := reason, reviewKind := Some(kind), result := result,
                               claim := None, terminalAt := Some(now), updatedAt := now))
            else
              Rejects(r, i, k, if !StillOpen(k) then AlreadyTerminal
                               else if kind.OtherKind? then InvalidKind
                               else if k.state.Queued? then NotClaimed
                               else if !fits then KindMismatch
                               else StaleToken, NotFound)
  {
    Decided(r, i, ReviewOp(token, reason, kind, result), k);
  }

  /** A rejection always fails the job; an approval queues a predeclared one, cleared
      to run, and completes a self-flagged one. */
  lemma ResolveLaw(r: Run, i: nat, approve: bool, note: Option<string>, resolver: Option<string>, k: Job)
    requires Finds(r, i, ResolveOp(approve, note, resolver), k)
    ensures var now := r.calls[i].now;
            var seen := k.(reviewBy := resolver, reviewAt := Some(now), reviewNote := note, updatedAt := now);
            if !k.state.NeedsReview? then Rejects(r, i, k, NotInReview, NotFound)
            else if !approve then
              Becomes(r, i, seen.(state := Failed, error := if note.Some? then note else Some(REJECTED),
                                  terminalAt := Some(now)))
            else if k.reviewKind == Some(Predeclared) then
              Becomes(r, i, seen.(state := Queued, attempts := 0, cleared := true, claim := None, terminalAt := None,
                                  error := None))
            else
              k.reviewKind == Some(SelfFlagged)
              && Becomes(r, i, seen.(state := Completed, terminalAt := Some(now)))
  {
    Decided(r, i, ResolveOp(approve, note, resolver), k);
  }

  /** An operation on a job that is not there changes nothing. */
  lemma MissingLaw(r: Run, i: nat, id: string, act: JobOp)
    requires r.Valid() && i < |r.calls| && r.calls[i].op == OnJob(id, act) && JobAt(r, i, id).None?
    ensures !Acts(r, i, id) && JobAt(r, i + 1, id).None?
    ensures if act.ClaimOp? then r.results[i].reply == NotTaken
            else if act.StartOp? || act.HeartbeatOp? || act.ReleaseOp? || act.RecoverOp? then
              r.results[i].reply == Refused(Unexplained, None)
            else r.results[i].reply == Refused(NotFound, None)
  {
    JobActs(r, i, id);
    JobNext(r, i, id);
  }

  /** To any other job the call is expiry, and pruning only of what is over. */
  lemma OthersLaw(r: Run, i: nat, id: string, k: Job)
    requires r.Valid() && i < |r.calls| && JobAt(r, i, id).Some? && ExpiresTo(JobAt(r, i, id).value, r.calls[i].now, k)
    requires !(r.calls[i].op.OnJob? && r.calls[i].op.id == id)
    ensures JobAt(r, i + 1, id) == Some(k) || (JobAt(r, i + 1, id).None? && IsOver(k))
  {
    ExpiryTable(JobAt(r, i, id).value, r.calls[i].now, k);
    FoundIsNamed(r, i, id);
    JobNext(r, i, id);
  }

  // ---- retention -----------------------------------------------------------

  /** With the default settings a job that is over stays for a day, while there are no
      more than 500 jobs, and no longer. */
  lemma RetentionLaw(r: Run, i: nat, id: string)
    requires r.Valid() && i < |r.calls| && JobAt(r, i, id).Some? && IsOver(JobAt(r, i, id).value)
    requires r.calls[i].opts == DEFAULT_OPTS
    ensures var j := JobAt(r, i, id).value;
            && j.terminalAt.Some?
            && (r.calls[i].now - j.terminalAt.value > 86400000 ==> JobAt(r, i + 1, id).None?)
            && (r.calls[i].now - j.terminalAt.value <= 86400000 && |r.stores[i].jobs| <= 500 ==>
                  JobAt(r, i + 1, id) == Some(j))
  {
    var j := JobAt(r, i, id).value;
    var c := r.calls[i];
    var swept := SweepJobs(r.stores[i].jobs, c.now);
    RunInv(r, i);
    FoundIsNamed(r, i, id);
    OpenedInv(r.stores[i], c.now, c.opts, r.names[i]);
    SweptFind(r.stores[i].jobs, c.now, id);
    PrunedFind(swept, c.now, c.opts, id);
    FindSpec(swept, id);
    FindSpec(Opened(r.stores[i], c.now, c.opts).jobs, id);
    PruneIsExact(swept, c.now, c.opts);
    WindowFits(swept, c.now, c.opts.retentionMs);
    assert r.StepAt(i);
    FindApplied(Opened(r.stores[i], c.now, c.opts), c.now, c.op, r.names[i], id);
    if c.op.OnJob? && c.op.id == id {
      OverIsFinal(j, c.now, c.op.act);
      UnchangedActKeeps(j, c.now, c.op.act);
    }
  }

  lemma WindowFits(jobs: seq<Job>, now: int, retentionMs: int)
    requires UniqueIds(jobs)
    ensures |WindowIds(jobs, now, retentionMs)| <= |jobs|
  {
    WindowCount(jobs, now, retentionMs);
    FilterMembers(jobs, WithinRetention(now, retentionMs));
  }

  // ---- looks and registrations ---------------------------------------------

  predicate Addressed(j: Job, agent: string) {
    j.state.Queued? && j.to == Some(agent)
  }

  ghost function AddressedIds(jobs: seq<Job>, agent: string): set<string> {
    set j | j in jobs && Addressed(j, agent) :: j.id
  }

  lemma TakenPrefix(jobs: seq<Job>, agent: string, limit: int, a: Job, b: Job)
    requires UniqueIds(jobs) && Before(jobs, a, b) && Addressed(a, agent)
    requires b in Take(Filter(jobs, InInbox(agent)), limit)
    ensures a in Take(Filter(jobs, InInbox(agent)), limit)
  {
    var all := Filter(jobs, InInbox(agent));
    FilterMembers(jobs, InInbox(agent));
    FilterUnique(jobs, InInbox(agent));
    assert b in all;
    FilterKeepsOrder(jobs, InInbox(agent), a, b);
    var p, q :| 0 <= p < q < |all| && all[p] == a && all[q] == b;
    var m :| 0 <= m < |Take(all, limit)| && Take(all, limit)[m] == b;
    assert all[m] == b && m == q;
    assert Take(all, limit)[p] == a;
  }

  lemma TakenInOrder(jobs: seq<Job>, agent: string, limit: int, p: nat, q: nat)
    requires UniqueIds(jobs) && p < q < |Take(Filter(jobs, InInbox(agent)), limit)|
    ensures var list := Take(Filter(jobs, InInbox(agent)), limit); Before(jobs, list[p], list[q])
  {
    var all := Filter(jobs, InInbox(agent));
    assert all[p] == Take(all, limit)[p] && all[q] == Take(all, limit)[q];
    assert Before(all, all[p], all[q]);
    OrderUnfiltered(jobs, InInbox(agent), all[p], all[q]);
  }

  /** A look at an inbox answers with the first jobs of the store, in its order, that
      are queued and addressed to this agent, as many as there are up to the limit. */
  lemma InboxLaw(r: Run, i: nat, agent: string, limit: int)
    requires r.Valid() && i < |r.calls| && r.calls[i].op == Inbox(agent, limit)
    ensures r.results[i].reply.ManyJobs?
    ensures var jobs := r.stores[i + 1].jobs; var list := r.results[i].reply.jobs; var n := |AddressedIds(jobs, agent)|;
            && (forall j :: j in list ==> j in jobs && Addressed(j, agent))
            && |list| == (if limit <= 0 then 0 else if limit < n then limit else n)
            && (forall p, q :: 0 <= p < q < |list| ==> Before(jobs, list[p], list[q]))
            && (forall a, b :: Before(jobs, a, b) && Addressed(a, agent) && b in list ==> a in list)
  {
    var jobs := r.stores[i + 1].jobs;
    var all := Filter(jobs, InInbox(agent));
    assert r.StepAt(i);
    RunInv(r, i + 1);
    FilterMembers(jobs, InInbox(agent));
    PassingCount(jobs, InInbox(agent));
    assert (set j | j in jobs && InInbox(agent).Passes(j) :: j.id) == AddressedIds(jobs, agent);
    forall p, q | 0 <= p < q < |Take(all, limit)|
      ensures Before(jobs, Take(all, limit)[p], Take(all, limit)[q])
    {
      TakenInOrder(jobs, agent, limit, p, q);
    }
    forall a, b | Before(jobs, a, b) && Addressed(a, agent) && b in Take(all, limit)
      ensures a in Take(all, limit)
    {
      TakenPrefix(jobs, agent, limit, a, b);
    }
  }

  /** A look at the list or the agents shows the store as the call leaves it, and a
      request id finds the job that has it. */
  lemma LookLaw(r: Run, i: nat)
    requires r.Valid() && i < |r.calls|
    ensures var after := r.stores[i + 1]; var reply := r.results[i].reply;
            match r.calls[i].op
            case ListJobs => reply == ManyJobs(after.jobs)
            case ListAgents => reply == AllAgents(after.agents)
            case GetJob(id) => reply == OneJob(JobAt(r, i + 1, id))
            case FindByRequest(requestId) =>
              reply.OneJob?
              && (if reply.found.Some? then reply.found.value in after.jobs && reply.found.value.requestId == requestId
                  else forall j :: j in after.jobs ==> j.requestId != requestId)
            case _ => true
  {
    assert r.StepAt(i);
    if r.calls[i].op.FindByRequest? {
      RequestFound(r, i, r.calls[i].op.requestId);
    }
  }

  lemma RequestFound(r: Run, i: nat, requestId: string)
    requires r.Valid() && i < |r.calls| && r.calls[i].op == FindByRequest(requestId)
    ensures var after := r.stores[i + 1]; var reply := r.results[i].reply;
            reply.OneJob?
            && (if reply.found.Some? then reply.found.value in after.jobs && reply.found.value.requestId == requestId
                else forall j :: j in after.jobs ==> j.requestId != requestId)
  {
    assert r.StepAt(i);
    RunInv(r, i + 1);
    var jobs := r.stores[i + 1].jobs;
    IndexFindsAll(jobs);
    if requestId in IndexOf(jobs) {
      var j :| j in jobs && j.requestId == requestId;
      FindMember(jobs, j);
    }
  }

  /** Registering keeps the first registration time, notes the time of this one, and
      touches no other agent; no other call touches any agent. */
  lemma RegisterLaw(r: Run, i: nat, agent: string)
    requires r.Valid() && i < |r.calls|
    ensures var before := r.stores[i].agents; var after := r.stores[i + 1].agents; var c := r.calls[i];
            if c.op == Register(agent) then
              agent in after && after[agent].lastSeen == c.now
              && after[agent].registeredAt == (if agent in before then before[agent].registeredAt else c.now)
              && r.results[i].reply == Registered(agent, after[agent])
            else (agent in after <==> agent in before) && (agent in after ==> after[agent] == before[agent])
  {
    assert r.StepAt(i);
  }
}
