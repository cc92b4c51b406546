/** The job store as the program runs it: a store file, an in-memory copy that each
    call loads, sweeps and mutates, and a write-back only when something changed.
    Every method is proved to do exactly the always-persisting step. */
module RelayJobs {
  import opened RelayTypes
  import opened JobSweep
  import opened StoreSteps
  import opened StoreRuns

  /** The store while a call holds the lock. */
  class Memory {
    var jobs: seq<Job>
    var index: map<string, string>
    var agents: map<string, Agent>

    ghost function Data(): StoreData
      reads this
    {
      StoreData(jobs, index, agents)
    }

    constructor Load(d: StoreData)
      ensures jobs == Filter(d.jobs, HasId) && agents == d.agents && index == IndexOf(jobs)
    {
      jobs, index, agents := [], map[], d.agents;
      new;
      jobs := Sieved(d.jobs, HasId);
      RebuildIndex();
    }

    static method Sieved(all: seq<Job>, sieve: Sieve) returns (kept: seq<Job>)
      ensures kept == Filter(all, sieve)
    {
      kept := [];
      for i := 0 to |all|
        invariant kept == Filter(all[..i], sieve)
      {
        assert all[..i + 1][..i] == all[..i];
        if sieve.Passes(all[i]) {
          kept := kept + [all[i]];
        }
      }
      assert all[..|all|] == all;
    }

    method RebuildIndex()
      modifies this`index
      ensures index == IndexOf(jobs)
    {
      index := map[];
      for i := 0 to |jobs|
        invariant index == IndexOf(jobs[..i])
      {
        assert jobs[..i + 1][..i] == jobs[..i];
        if jobs[i].requestId != "" {
          index := index[jobs[i].requestId := jobs[i].id];
        }
      }
      assert jobs[..|jobs|] == jobs;
    }

    /** Expire one job: the job afterwards, and whether an event is due for it. */
    static method ExpireJob(before: Job, now: int) returns (job: Job, event: bool)
      ensures job == SweepJob(before, now) && ExpiresTo(before, now, job)
      ensures event <==> job != before
    {
      SweepMovesOverdue(before, now);
      ExpiryTable(before, now, SweepJob(before, now));
      job, event := before, false;
      if job.state.Terminal() {
        return;
      }
      if job.ttl.Some? && now - job.enqueuedAt > job.ttl.value {
        if job.state.InFlight() && job.policy.Park? {
          job := job.(state := NeedsRecovery, error := Some(TTL_PARKED));
        } else {
          job := job.(state := Expired);
        }
        job := job.(terminalAt := Some(now), updatedAt := now, claim := None);
        return job, true;
      }
      if job.state.InFlight() && job.claim.Some? && job.claim.value.expiresAt.Some?
        && now > job.claim.value.expiresAt.value {
        job := job.(claim := None, updatedAt := now);
        if job.policy.Park? {
          job := job.(state := NeedsRecovery, error := Some(LEASE_PARKED), terminalAt := Some(now));
        } else {
          job := job.(attempts := job.attempts + 1);
          if job.attempts >= job.maxAttempts {
            job := job.(state := Failed, error := Some(ATTEMPTS_EXHAUSTED), terminalAt := Some(now));
          } else {
            job := job.(state := Queued);
          }
        }
        event := true;
      }
    }

    /** Expires TTLs and leases in place, one job after the other, and logs an event
        for each job it touches. */
    method Expire(now: int) returns (events: seq<string>)
      modifies this`jobs
      ensures jobs == SweepJobs(old(jobs), now)
      ensures |jobs| == |old(jobs)| && forall k :: 0 <= k < |jobs| ==> ExpiresTo(old(jobs)[k], now, jobs[k])
      ensures events == [] <==> jobs == old(jobs)
    {
      events := [];
      ghost var loaded := jobs;
      for i := 0 to |jobs|
        invariant |jobs| == |loaded|
        invariant forall k :: 0 <= k < i ==> jobs[k] == SweepJob(loaded[k], now) && ExpiresTo(loaded[k], now, jobs[k])
        invariant forall k :: i <= k < |jobs| ==> jobs[k] == loaded[k]
        invariant events == [] <==> jobs == loaded
      {
        var job, event := ExpireJob(jobs[i], now);
        if event {
          events := events + [job.id];
        }
        jobs := jobs[i := job];
      }
    }

    /** Retention, then the hard cap; returns how many jobs were dropped. */
    method Evict(now: int, opts: Opts) returns (dropped: nat)
      modifies this
      ensures jobs == Prune(old(jobs), now, opts) && index == IndexOf(jobs) && agents == old(agents)
      ensures dropped == |old(jobs)| - |jobs|
    {
      var before := |jobs|;
      PruneSameLength(jobs, now, opts);
      var retained := Sieved(jobs, WithinRetention(now, opts.retentionMs));
      if |retained| > opts.maxJobs {
        var prunable := Sieved(retained, IsPrunable);
        prunable := Oldest(prunable);
        var overflow := |retained| - opts.maxJobs;
        var toDrop := IdSet(prunable[..if overflow < |prunable| then overflow else |prunable|]);
        retained := Sieved(retained, NotDropped(toDrop));
      }
      jobs := retained;
      RebuildIndex();
      dropped := before - |jobs|;
    }

    /** The sweep; its report is exact: true only if the job list really changed. */
    method Sweep(now: int, opts: Opts) returns (changed: bool)
      modifies this
      ensures jobs == Prune(SweepJobs(old(jobs), now), now, opts) && index == IndexOf(jobs) && agents == old(agents)
      ensures forall k :: k in jobs ==> exists j :: j in old(jobs) && ExpiresTo(j, now, k)
      ensures UniqueIds(old(jobs)) ==>
                forall j, k :: j in old(jobs) && ExpiresTo(j, now, k) && !IsOver(k) ==> k in jobs
      ensures changed <==> jobs != old(jobs)
    {
      SweepTable(jobs, now, opts);
      var events := Expire(now);
      PruneSameLength(jobs, now, opts);
      var dropped := Evict(now, opts);
      changed := |events| > 0 || dropped > 0;
    }

    method FindJob(id: string) returns (i: nat)
      ensures i == Position(jobs, id)
    {
      i := 0;
      while i < |jobs|
        invariant i <= |jobs|
        invariant forall k :: 0 <= k < i ==> jobs[k].id != id
      {
        if jobs[i].id == id {
          return;
        }
        i := i + 1;
      }
    }
  }

  /** The store file, shared by every process. `run` is the history of calls that
      led to it, `minted` the ids and tokens drawn so far. */
  class RelayStore {
    var disk: StoreData
    var minted: set<string>
    ghost var run: Run

    ghost predicate Valid()
      reads this
    {
      run.Valid() && disk == run.stores[|run.calls|] && minted == run.names[|run.calls|]
    }

    constructor ()
      ensures Valid() && run == START
    {
      disk, minted, run := EMPTY, {}, START;
    }

    /** The call was made: it is the next one in the history, and the caller got the
        reply that the always-persisting step gives (`run` is valid). */
    ghost predicate Made(before: Run, c: Call, reply: Reply)
      reads this
    {
      && run.Shaped() && Grows(before, run)
      && |run.calls| == |before.calls| + 1
      && run.calls[|before.calls|] == c && run.results[|before.calls|].reply == reply
    }

    /** Load and sweep. */
    method Open(now: int, opts: Opts) returns (memory: Memory, swept: bool)
      requires Valid()
      ensures fresh(memory) && memory.Data() == Opened(disk, now, opts)
      ensures swept <==> memory.jobs != disk.jobs
    {
      RunInv(run, |run.calls|);
      OpenedInv(disk, now, opts, minted);
      memory := new Memory.Load(disk);
      swept := memory.Sweep(now, opts);
    }

    /** Persist if anything changed, and note the call in the history. */
    method Close(c: Call, memory: Memory, changed: bool, reply: Reply)
      requires Valid() && Possible(c.op, minted)
      requires Step(disk, c).store == memory.Data() && Step(disk, c).reply == reply
      requires changed || memory.Data() == disk
      modifies this
      ensures Valid() && Made(old(run), c, reply)
    {
      if changed {
        disk := StoreData(memory.jobs, memory.index, memory.agents);
      }
      ExtendValid(run, c);
      minted := minted + Mints(c.op);
      run := run.Extend(c);
    }

    /** Close a call whose operation left the swept store as it was. */
    method CloseRead(c: Call, memory: Memory, swept: bool, reply: Reply)
      requires Valid() && Possible(c.op, minted)
      requires memory.Data() == Opened(disk, c.now, c.opts) && (swept <==> memory.jobs != disk.jobs)
      requires Apply(memory.Data(), c.now, c.op) == StepResult(memory.Data(), reply, false)
      modifies this
      ensures Valid() && Made(old(run), c, reply)
    {
      RunInv(run, |run.calls|);
      if !swept {
        UnchangedStepKeeps(disk, c, minted);
      }
      Close(c, memory, swept, reply);
    }

    /** Put the mutated job back into the list and close the call. */
    method CloseWith(c: Call, memory: Memory, swept: bool, i: nat, job: Job, changed: bool, reply: Reply)
      requires Valid() && Possible(c.op, minted) && c.op.OnJob?
      requires memory.Data() == Opened(disk, c.now, c.opts) && (swept <==> memory.jobs != disk.jobs)
      requires i == Position(memory.jobs, c.op.id) < |memory.jobs|
      requires Act(memory.jobs[i], c.now, c.op.act) == Acted(job, reply, changed)
      modifies this, memory
      ensures Valid() && Made(old(run), c, reply)
    {
      RunInv(run, |run.calls|);
      memory.jobs := memory.jobs[i := job];
      if !swept && !changed {
        UnchangedStepKeeps(disk, c, minted);
      }
      Close(c, memory, swept || changed, reply);
    }

    // ---- the public calls ----------------------------------------------------

    /** None when the request id is missing: the source throws and touches nothing. */
    method Enqueue(caller: nat, requestId: string, to: Option<string>, from: Option<string>, payload: Payload,
                   ttl: Option<int>, maxAttempts: Option<int>, policy: Policy, freshId: string, now: int, opts: Opts)
      returns (reply: Option<Reply>)
      requires Valid() && freshId != "" && freshId !in minted
      modifies this
      ensures Valid() && (reply.None? <==> requestId == "")
      ensures reply.None? ==> unchanged(this)
      ensures reply.Some? ==>
                Made(old(run), Call(caller, now, opts,
                                    StoreSteps.Enqueue(requestId, to, from, payload, ttl, maxAttempts, policy,
                                                       freshId)),
                     reply.value)
    {
      if requestId == "" {
        return None;
      }
      var c := Call(caller, now, opts,
                    StoreSteps.Enqueue(requestId, to, from, payload, ttl, maxAttempts, policy, freshId));
      var memory, swept := Open(now, opts);
      if requestId in memory.index {
        var i := memory.FindJob(memory.index[requestId]);
        if i < |memory.jobs| {
          reply := Some(Enqueued(memory.jobs[i].id, true, memory.jobs[i]));
          CloseRead(c, memory, swept, reply.value);
          return;
        }
      }
      var job := Job(freshId, requestId, Queued, to, from, payload, now, now, None, ttl,
                     if maxAttempts.Some? then maxAttempts.value else DEFAULT_MAX_ATTEMPTS,
                     policy, 0, None, None, None, None, None, None, None, None, false, None);
      memory.jobs := memory.jobs + [job];
      memory.index := memory.index[requestId := freshId];
      reply := Some(Enqueued(freshId, false, job));
      Close(c, memory, true, reply.value);
    }

    method Claim(caller: nat, id: string, worker: Option<string>, leaseMs: Option<int>, freshToken: string, now: int,
                 opts: Opts)
      returns (reply: Reply)
      requires Valid() && freshToken != "" && freshToken !in minted
      modifies this
      ensures Valid() && Made(old(run), Call(caller, now, opts, OnJob(id, ClaimOp(worker, leaseMs, freshToken))), reply)
    {
      var c := Call(caller, now, opts, OnJob(id, ClaimOp(worker, leaseMs, freshToken)));
      var memory, swept := Open(now, opts);
      var i := memory.FindJob(id);
      if i == |memory.jobs| || !memory.jobs[i].state.Queued? {
        reply := NotTaken;
        if i == |memory.jobs| {
          CloseRead(c, memory, swept, reply);
        } else {
          CloseWith(c, memory, swept, i, memory.jobs[i], false, reply);
        }
        return;
      }
      var job := memory.jobs[i];
      job := job.(state := Claimed);
      job := job.(claim :=
        Some(RelayTypes.Claim(worker, freshToken, now, if leaseMs.Some? then Some(now + leaseMs.value) else None)));
      job := job.(updatedAt := now);
      reply := Taken(job, freshToken);
      CloseWith(c, memory, swept, i, job, true, reply);
    }

    method StartRunning(caller: nat, id: string, token: string, now: int, opts: Opts) returns (reply: Reply)
      requires Valid()
      modifies this
      ensures Valid() && Made(old(run), Call(caller, now, opts, OnJob(id, StartOp(token))), reply)
    {
      var c := Call(caller, now, opts, OnJob(id, StartOp(token)));
      var memory, swept := Open(now, opts);
      var i := memory.FindJob(id);
      if i == |memory.jobs| {
        reply := Refused(Unexplained, None);
        CloseRead(c, memory, swept, reply);
        return;
      }
      var job := memory.jobs[i];
      if !job.state.Claimed? || job.claim.None? || job.claim.value.token != token {
        reply := Refused(Unexplained, Some(job));
        CloseWith(c, memory, swept, i, job, false, reply);
        return;
      }
      job := job.(state := Running);
      job := job.(updatedAt := now);
      reply := Accepted(job);
      CloseWith(c, memory, swept, i, job, true, reply);
    }

    method Heartbeat(caller: nat, id: string, token: string, leaseMs: Option<int>, now: int, opts: Opts)
      returns (reply: Reply)
      requires Valid()
      modifies this
      ensures Valid() && Made(old(run), Call(caller, now, opts, OnJob(id, HeartbeatOp(token, leaseMs))), reply)
    {
      var c := Call(caller, now, opts, OnJob(id, HeartbeatOp(token, leaseMs)));
      var memory, swept := Open(now, opts);
      var i := memory.FindJob(id);
      if i == |memory.jobs| {
        reply := Refused(Unexplained, None);
        CloseRead(c, memory, swept, reply);
        return;
      }
      var job := memory.jobs[i];
      if !job.state.InFlight() || job.claim.None? || job.claim.value.token != token {
        reply := Refused(Unexplained, Some(job));
        CloseWith(c, memory, swept, i, job, false, reply);
        return;
      }
      var renewed := job.claim.value.(expiresAt := if leaseMs.Some? then Some(now + leaseMs.value) else None);
      job := job.(claim := Some(renewed));
      job := job.(updatedAt := now);
      reply := Accepted(job);
      CloseWith(c, memory, swept, i, job, true, reply);
    }

    method Release(caller: nat, id: string, token: string, now: int, opts: Opts) returns (reply: Reply)
      requires Valid()
      modifies this
      ensures Valid() && Made(old(run), Call(caller, now, opts, OnJob(id, ReleaseOp(token))), reply)
    {
      var c := Call(caller, now, opts, OnJob(id, ReleaseOp(token)));
      var memory, swept := Open(now, opts);
      var i := memory.FindJob(id);
      if i == |memory.jobs| {
        reply := Refused(Unexplained, None);
        CloseRead(c, memory, swept, reply);
        return;
      }
      var job := memory.jobs[i];
      if !job.state.InFlight() || job.claim.None? || job.claim.value.token != token {
        reply := Refused(Unexplained, Some(job));
        CloseWith(c, memory, swept, i, job, false, reply);
        return;
      }
      job := job.(state := Queued);
      job := job.(claim := None);
      job := job.(updatedAt := now);
      reply := Accepted(job);
      CloseWith(c, memory, swept, i, job, true, reply);
    }

    method Complete(caller: nat, id: string, token: string, result: Option<string>, now: int, opts: Opts)
      returns (reply: Reply)
      requires Valid()
      modifies this
      ensures Valid() && Made(old(run), Call(caller, now, opts, OnJob(id, CompleteOp(token, result))), reply)
    {
      var c := Call(caller, now, opts, OnJob(id, CompleteOp(token, result)));
      var memory, swept := Open(now, opts);
      var i := memory.FindJob(id);
      if i == |memory.jobs| {
        reply := Refused(NotFound, None);
        CloseRead(c, memory, swept, reply);
        return;
      }
      var job := memory.jobs[i];
      var changed := false;
      if job.state.Completed? && job.completedBy == Some(token) {
        reply := Accepted(job);
      } else if job.state.Terminal() {
        reply := Refused(AlreadyTerminal, Some(job));
      } else if !job.state.InFlight() {
        reply := Refused(NotClaimed, Some(job));
      } else if job.claim.None? || job.claim.value.token != token {
        reply := Refused(StaleToken, Some(job));
      } else {
        job := job.(state := Completed, result := result);
        job := job.(completedBy := Some(token));
        job := job.(terminalAt := Some(now), claim := None, updatedAt := now);
        reply := Accepted(job);
        changed := true;
      }
      CloseWith(c, memory, swept, i, job, changed, reply);
    }

    method Fail(caller: nat, id: string, token: string, error: Option<string>, retry: bool, now: int, opts: Opts)
      returns (reply: Reply)
      requires Valid()
      modifies this
      ensures Valid() && Made(old(run), Call(caller, now, opts, OnJob(id, FailOp(token, error, retry))), reply)
    {
      var c := Call(caller, now, opts, OnJob(id, FailOp(token, error, retry)));
      var memory, swept := Open(now, opts);
      var i := memory.FindJob(id);
      if i == |memory.jobs| {
        reply := Refused(NotFound, None);
        CloseRead(c, memory, swept, reply);
        return;
      }
      var job := memory.jobs[i];
      var changed := false;
      if job.state.Terminal() {
        reply := Refused(AlreadyTerminal, Some(job));
      } else if !job.state.InFlight() {
        reply := Refused(NotClaimed, Some(job));
      } else if job.claim.None? || job.claim.value.token != token {
        reply := Refused(StaleToken, Some(job));
      } else {
        job := job.(attempts := job.attempts + 1, claim := None, updatedAt := now);
        if retry && job.attempts < job.maxAttempts {
          job := job.(state := Queued);
        } else {
          job := job.(state := Failed, error := error, terminalAt := Some(now));
        }
        reply := Accepted(job);
        changed := true;
      }
      CloseWith(c, memory, swept, i, job, changed, reply);
    }

    method Cancel(caller: nat, id: string, now: int, opts: Opts) returns (reply: Reply)
      requires Valid()
      modifies this
      ensures Valid() && Made(old(run), Call(caller, now, opts, OnJob(id, CancelOp)), reply)
    {
      var c := Call(caller, now, opts, OnJob(id, CancelOp));
      var memory, swept := Open(now, opts);
      var i := memory.FindJob(id);
      if i == |memory.jobs| {
        reply := Refused(NotFound, None);
        CloseRead(c, memory, swept, reply);
        return;
      }
      var job := memory.jobs[i];
      if job.state.Terminal() {
        reply := Refused(AlreadyTerminal, Some(job));
        CloseWith(c, memory, swept, i, job, false, reply);
        return;
      }
      job := job.(state := Cancelled, claim := None);
      job := job.(terminalAt := Some(now), updatedAt := now);
      reply := Accepted(job);
      CloseWith(c, memory, swept, i, job, true, reply);
    }

    method Park(caller: nat, id: string, token: string, error: Option<string>, now: int, opts: Opts)
      returns (reply: Reply)
      requires Valid()
      modifies this
      ensures Valid() && Made(old(run), Call(caller, now, opts, OnJob(id, ParkOp(token, error))), reply)
    {
      var c := Call(caller, now, opts, OnJob(id, ParkOp(token, error)));
      var memory, swept := Open(now, opts);
      var i := memory.FindJob(id);
      if i == |memory.jobs| {
        reply := Refused(NotFound, None);
        CloseRead(c, memory, swept, reply);
        return;
      }
      var job := memory.jobs[i];
      var changed := false;
      if job.state.Terminal() {
        reply := Refused(AlreadyTerminal, Some(job));
      } else if !job.state.InFlight() {
        reply := Refused(NotClaimed, Some(job));
      } else if job.claim.None? || job.claim.value.token != token {
        reply := Refused(StaleToken, Some(job));
      } else {
        job := job.(state := NeedsRecovery, error := if error.Some? then error else Some(PARKED));
        job := job.(terminalAt := Some(now), claim := None, updatedAt := now);
        reply := Accepted(job);
        changed := true;
      }
      CloseWith(c, memory, swept, i, job, changed, reply);
    }

    method Recover(caller: nat, id: string, now: int, opts: Opts) returns (reply: Reply)
      requires Valid()
      modifies this
      ensures Valid() && Made(old(run), Call(caller, now, opts, OnJob(id, RecoverOp)), reply)
    {
      var c := Call(caller, now, opts, OnJob(id, RecoverOp));
      var memory, swept := Open(now, opts);
      var i := memory.FindJob(id);
      if i == |memory.jobs| {
        reply := Refused(Unexplained, None);
        CloseRead(c, memory, swept, reply);
        return;
      }
      var job := memory.jobs[i];
      if !job.state.NeedsRecovery? {
        reply := Refused(Unexplained, Some(job));
        CloseWith(c, memory, swept, i, job, false, reply);
        return;
      }
      job := job.(state := Queued, claim := None);
      job := job.(terminalAt := None, error := None, attempts := 0, updatedAt := now);
      reply := Accepted(job);
      CloseWith(c, memory, swept, i, job, true, reply);
    }

    method SendToReview(caller: nat, id: string, token: string, reason: Option<string>, kind: ReviewKind,
                        result: Option<string>, now: int, opts: Opts)
      returns (reply: Reply)
      requires Valid()
      modifies this
      ensures Valid() && Made(old(run), Call(caller, now, opts, OnJob(id, ReviewOp(token, reason, kind, result))),
                              reply)
    {
      var c := Call(caller, now, opts, OnJob(id, ReviewOp(token, reason, kind, result)));
      var memory, swept := Open(now, opts);
      var i := memory.FindJob(id);
      if i == |memory.jobs| {
        reply := Refused(NotFound, None);
        CloseRead(c, memory, swept, reply);
        return;
      }
      var job := memory.jobs[i];
      var changed := false;
      if job.state.Terminal() {
        reply := Refused(AlreadyTerminal, Some(job));
      } else if kind != Predeclared && kind != SelfFlagged {
        reply := Refused(InvalidKind, Some(job));
      } else if !job.state.InFlight() {
        reply := Refused(NotClaimed, Some(job));
      } else if (kind == Predeclared && !job.state.Claimed?) || (kind == SelfFlagged && !job.state.Running?) {
        reply := Refused(KindMismatch, Some(job));
      } else if job.claim.None? || job.claim.value.token != token {
        reply := Refused(StaleToken, Some(job));
      } else {
        job := job.(state := NeedsReview, riskReason := reason, reviewKind := Some(kind), result := result);
        job := job.(terminalAt := Some(now), claim := None, updatedAt := now);
        reply := Accepted(job);
        changed := true;
      }
      CloseWith(c, memory, swept, i, job, changed, reply);
    }

    method ResolveReview(caller: nat, id: string, approve: bool, note: Option<string>, resolver: Option<string>,
                         now: int, opts: Opts)
      returns (reply: Reply)
      requires Valid()
      modifies this
      ensures Valid() && Made(old(run), Call(caller, now, opts, OnJob(id, ResolveOp(approve, note, resolver))), reply)
    {
      var c := Call(caller, now, opts, OnJob(id, ResolveOp(approve, note, resolver)));
      var memory, swept := Open(now, opts);
      var i := memory.FindJob(id);
      if i == |memory.jobs| {
        reply := Refused(NotFound, None);
        CloseRead(c, memory, swept, reply);
        return;
      }
      var job := memory.jobs[i];
      if !job.state.NeedsReview? {
        reply := Refused(NotInReview, Some(job));
        CloseWith(c, memory, swept, i, job, false, reply);
        return;
      }
      job := job.(reviewBy := resolver, reviewAt := Some(now), reviewNote := note, updatedAt := now);
      if approve {
        if job.reviewKind == Some(Predeclared) {
          job := job.(state := Queued, attempts := 0, claim := None);
          job := job.(cleared := true, terminalAt := None, error := None);
        } else if job.reviewKind == Some(SelfFlagged) {
          job := job.(state := Completed, terminalAt := Some(now));
        } else {
          reply := Refused(InvalidKind, Some(job));
          CloseWith(c, memory, swept, i, job, false, reply);
          return;
        }
      } else {
        job := job.(state := Failed, error := if note.Some? then note else Some(REJECTED), terminalAt := Some(now));
      }
      reply := Accepted(job);
      CloseWith(c, memory, swept, i, job, true, reply);
    }

    method RegisterAgent(caller: nat, agent: string, now: int, opts: Opts) returns (reply: Option<Reply>)
      requires Valid()
      modifies this
      ensures Valid() && (reply.None? <==> agent == "")
      ensures reply.None? ==> unchanged(this)
      ensures reply.Some? ==> Made(old(run), Call(caller, now, opts, Register(agent)), reply.value)
    {
      if agent == "" {
        return None;
      }
      var c := Call(caller, now, opts, Register(agent));
      var memory, swept := Open(now, opts);
      var meta := Agent(now, now);
      if agent in memory.agents {
        meta := meta.(registeredAt := memory.agents[agent].registeredAt);
      }
      memory.agents := memory.agents[agent := meta];
      reply := Some(Registered(agent, meta));
      Close(c, memory, true, reply.value);
    }

    method GetJob(caller: nat, id: string, now: int, opts: Opts) returns (found: Option<Job>)
      requires Valid()
      modifies this
      ensures Valid() && Made(old(run), Call(caller, now, opts, StoreSteps.GetJob(id)), OneJob(found))
    {
      var memory, swept := Open(now, opts);
      var i := memory.FindJob(id);
      found := if i < |memory.jobs| then Some(memory.jobs[i]) else None;
      CloseRead(Call(caller, now, opts, StoreSteps.GetJob(id)), memory, swept, OneJob(found));
    }

    method FindByRequestId(caller: nat, requestId: string, now: int, opts: Opts) returns (found: Option<Job>)
      requires Valid()
      modifies this
      ensures Valid() && Made(old(run), Call(caller, now, opts, FindByRequest(requestId)), OneJob(found))
    {
      var memory, swept := Open(now, opts);
      found := None;
      if requestId in memory.index {
        var i := memory.FindJob(memory.index[requestId]);
        found := if i < |memory.jobs| then Some(memory.jobs[i]) else None;
      }
      CloseRead(Call(caller, now, opts, FindByRequest(requestId)), memory, swept, OneJob(found));
    }

    method List(caller: nat, now: int, opts: Opts) returns (all: seq<Job>)
      requires Valid()
      modifies this
      ensures Valid() && Made(old(run), Call(caller, now, opts, ListJobs), ManyJobs(all))
    {
      var memory, swept := Open(now, opts);
      all := memory.jobs;
      CloseRead(Call(caller, now, opts, ListJobs), memory, swept, ManyJobs(all));
    }

    method InboxFor(caller: nat, agent: string, limit: int, now: int, opts: Opts) returns (inbox: seq<Job>)
      requires Valid()
      modifies this
      ensures Valid() && Made(old(run), Call(caller, now, opts, Inbox(agent, limit)), ManyJobs(inbox))
    {
      var memory, swept := Open(now, opts);
      inbox := Memory.Sieved(memory.jobs, InInbox(agent));
      inbox := Take(inbox, limit);
      CloseRead(Call(caller, now, opts, Inbox(agent, limit)), memory, swept, ManyJobs(inbox));
    }

    // ---- everyone else -------------------------------------------------------

    /** What other callers do between two calls of `me`: any calls, each one atomic
        step. A call that would draw a name already drawn cannot happen. */
    method Interfere(env: seq<Call>, me: nat)
      requires Valid()
      modifies this
      ensures Valid() && Grows(old(run), run)
      ensures forall k :: |old(run).calls| <= k < |run.calls| ==> run.calls[k].caller != me
    {
      for i := 0 to |env|
        invariant Valid() && Grows(old(run), run)
        invariant forall k :: |old(run).calls| <= k < |run.calls| ==> run.calls[k].caller != me
      {
        if env[i].caller != me && Possible(env[i].op, minted) {
          ExtendValid(run, env[i]);
          disk := Step(disk, env[i]).store;
          minted := minted + Mints(env[i].op);
          run := run.Extend(env[i]);
        }
      }
    }
  }
}
