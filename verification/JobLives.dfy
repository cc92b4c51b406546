/** What a run does to a single job: every later theorem about a job reasons
    about `Lived`, one sweep followed by at most one operation. */
module JobLives {
  import opened RelayTypes
  import opened JobSweep
  import opened StoreSteps
  import opened StoreRuns

  /** What a call makes of a job that survives it. */
  function Lived(j: Job, c: Call): Job {
    var k := SweepJob(j, c.now);
    if c.op.OnJob? && c.op.id == j.id then Act(k, c.now, c.op.act).job else k
  }

  lemma FindSpec(jobs: seq<Job>, id: string)
    ensures Find(jobs, id).Some? ==> Find(jobs, id).value in jobs && Find(jobs, id).value.id == id
    ensures Find(jobs, id).None? ==> forall j :: j in jobs ==> j.id != id
  {
  }

  lemma SweptFind(jobs: seq<Job>, now: int, id: string)
    ensures Find(SweepJobs(jobs, now), id) ==
            if Find(jobs, id).Some? then Some(SweepJob(Find(jobs, id).value, now)) else None
  {
    var swept := SweepJobs(jobs, now);
    forall k | 0 <= k < |jobs|
      ensures swept[k].id == jobs[k].id
    {
      SweptIdentity(jobs[k], now);
    }
    assert Position(swept, id) == Position(jobs, id);
  }

  lemma PrunedFind(jobs: seq<Job>, now: int, opts: Opts, id: string)
    requires UniqueIds(jobs)
    ensures var before := Find(jobs, id); var after := Find(Prune(jobs, now, opts), id);
            if before.Some? then after == before || (after.None? && before.value.state.Prunable()) else after.None?
  {
    PruneIsConservative(jobs, now, opts);
    FindSpec(jobs, id);
    FindSpec(Prune(jobs, now, opts), id);
    var after := Find(Prune(jobs, now, opts), id);
    if after.Some? {
      FindMember(jobs, after.value);
    }
  }

  /** Opening a store sweeps the job, and drops it only when it is prunable. */
  lemma FindOpened(s: StoreData, now: int, opts: Opts, names: set<string>, id: string)
    requires Inv(s, names)
    ensures var before := Find(s.jobs, id); var after := Find(Opened(s, now, opts).jobs, id);
            if before.Some? then
              after == Some(SweepJob(before.value, now))
              || (after.None? && SweepJob(before.value, now).state.Prunable())
            else after.None?
  {
    OpenedInv(s, now, opts, names);
    SweptFind(s.jobs, now, id);
    PrunedFind(SweepJobs(s.jobs, now), now, opts, id);
  }

  lemma SweptIdentity(j: Job, now: int)
    ensures SweepJob(j, now).id == j.id
  {
  }

  lemma FindUpdated(jobs: seq<Job>, i: nat, job: Job, id: string)
    requires UniqueIds(jobs) && i < |jobs| && jobs[i].id == job.id
    ensures Find(jobs[i := job], id) == if id == job.id then Some(job) else Find(jobs, id)
  {
    var updated := jobs[i := job];
    assert forall k :: 0 <= k < |jobs| ==> updated[k].id == jobs[k].id;
    assert Position(updated, id) == Position(jobs, id);
  }

  lemma FindAppended(jobs: seq<Job>, job: Job, id: string)
    ensures Find(jobs + [job], id) ==
            if Find(jobs, id).Some? then Find(jobs, id) else if job.id == id then Some(job) else None
  {
    var r := Position(jobs + [job], id);
    if r < |jobs| {
      assert jobs[r].id == id;
    }
    assert forall k :: 0 <= k < |jobs| ==> (jobs + [job])[k] == jobs[k];
  }

  lemma FindApplied(s: StoreData, now: int, op: Op, names: set<string>, id: string)
    requires Inv(s, names) && Possible(op, names)
    ensures var before := Find(s.jobs, id); var after := Find(Apply(s, now, op).store.jobs, id);
            if before.Some? then
              after == Some(if op.OnJob? && op.id == id then Act(before.value, now, op.act).job else before.value)
            else
              after ==
              if op.Enqueue? && op.freshId == id && Apply(s, now, op).changed then Some(NewJob(op, now)) else None
  {
    if op.Enqueue? {
      EnqueueAdds(s, now, op, names);
      FindAppended(s.jobs, NewJob(op, now), id);
      FreshIdNotFound(s, op, names);
    } else if op.OnJob? {
      var i := Position(s.jobs, op.id);
      if i < |s.jobs| {
        ActIdentity(s.jobs[i], now, op.act);
        FindUpdated(s.jobs, i, Act(s.jobs[i], now, op.act).job, id);
      }
    } else {
      assert Apply(s, now, op).store.jobs == s.jobs;
    }
  }

  /** One call, seen from one job: the job lives on, or it was prunable and is
      gone; a job appears only by an enqueue that draws its id. */
  lemma StepOnJob(s: StoreData, c: Call, names: set<string>, id: string)
    requires Inv(s, names) && Possible(c.op, names)
    ensures var before := Find(s.jobs, id); var after := Find(Step(s, c).store.jobs, id);
            if before.Some? then
              after == Some(Lived(before.value, c))
              || (after.None? && SweepJob(before.value, c.now).state.Prunable())
            else
              after.None?
              || (c.op.Enqueue? && c.op.freshId == id && Step(s, c).changed && after == Some(NewJob(c.op, c.now)))
  {
    OpenedInv(s, c.now, c.opts, names);
    FindOpened(s, c.now, c.opts, names, id);
    FindApplied(Opened(s, c.now, c.opts), c.now, c.op, names, id);
    FindSpec(s.jobs, id);
  }

  lemma FreshIdNotFound(s: StoreData, op: Op, names: set<string>)
    requires Inv(s, names) && Possible(op, names) && op.Enqueue?
    ensures Find(s.jobs, op.freshId).None?
  {
    assert op.freshId in Mints(op);
    FindSpec(s.jobs, op.freshId);
  }

  lemma ActIdentity(j: Job, now: int, act: JobOp)
    ensures Act(j, now, act).job.id == j.id
  {
  }

  /** The outcome of an operation on a job is decided by the swept job alone. */
  lemma StepActs(s: StoreData, c: Call, names: set<string>)
    requires Inv(s, names) && Possible(c.op, names) && c.op.OnJob?
    ensures var before := Find(s.jobs, c.op.id); var after := Find(Step(s, c).store.jobs, c.op.id);
            if before.Some? && after.Some? then
              var acted := Act(SweepJob(before.value, c.now), c.now, c.op.act);
              Step(s, c).changed == acted.changed && Step(s, c).reply == acted.reply && after == Some(acted.job)
            else
              !Step(s, c).changed && Step(s, c).reply == Missing(c.op.act) && after.None?
  {
    var o := Opened(s, c.now, c.opts);
    OpenedInv(s, c.now, c.opts, names);
    FindOpened(s, c.now, c.opts, names, c.op.id);
    var i := Position(o.jobs, c.op.id);
    if i < |o.jobs| {
      ActIdentity(o.jobs[i], c.now, c.op.act);
      FindUpdated(o.jobs, i, Act(o.jobs[i], c.now, c.op.act).job, c.op.id);
    }
  }

  // ---- the same along a run ------------------------------------------------

  ghost function JobAt(r: Run, i: nat, id: string): Option<Job>
    requires r.Shaped() && i <= |r.calls|
  {
    Find(r.stores[i].jobs, id)
  }

  /** Call i is an operation on this job and the store accepted it. */
  ghost predicate Acts(r: Run, i: nat, id: string)
    requires r.Shaped() && i < |r.calls|
  {
    r.calls[i].op.OnJob? && r.calls[i].op.id == id && r.results[i].changed
  }

  lemma JobNext(r: Run, i: nat, id: string)
    requires r.Valid() && i < |r.calls|
    ensures var before := JobAt(r, i, id); var after := JobAt(r, i + 1, id); var c := r.calls[i];
            if before.Some? then
              after == Some(Lived(before.value, c))
              || (after.None? && SweepJob(before.value, c.now).state.Prunable())
            else after.None? || (c.op.Enqueue? && c.op.freshId == id && after == Some(NewJob(c.op, c.now)))
  {
    RunInv(r, i);
    assert r.StepAt(i);
    StepOnJob(r.stores[i], r.calls[i], r.names[i], id);
  }

  lemma JobActs(r: Run, i: nat, id: string)
    requires r.Valid() && i < |r.calls| && r.calls[i].op.OnJob? && r.calls[i].op.id == id
    ensures var before := JobAt(r, i, id); var after := JobAt(r, i + 1, id); var c := r.calls[i];
            if before.Some? && after.Some? then
              var acted := Act(SweepJob(before.value, c.now), c.now, c.op.act);
              Acts(r, i, id) == acted.changed && r.results[i].reply == acted.reply && after == Some(acted.job)
            else
              !Acts(r, i, id) && r.results[i].reply == Missing(c.op.act) && after.None?
  {
    RunInv(r, i);
    assert r.StepAt(i);
    StepActs(r.stores[i], r.calls[i], r.names[i]);
  }

  /** getJob answers with the job as it stands after the call. */
  lemma ReadJob(r: Run, i: nat, id: string)
    requires r.Valid() && i < |r.calls| && r.calls[i].op == GetJob(id)
    ensures r.results[i].reply == OneJob(JobAt(r, i + 1, id))
  {
    assert r.StepAt(i);
  }

  lemma FoundIsNamed(r: Run, i: nat, id: string)
    requires r.Valid() && i <= |r.calls| && JobAt(r, i, id).Some?
    ensures id in r.names[i] && JobOk(JobAt(r, i, id).value) && JobAt(r, i, id).value.id == id
  {
    RunInv(r, i);
    FindSpec(r.stores[i].jobs, id);
  }

  /** A job that once existed and is gone never comes back under its id. */
  lemma {:induction false} GoneStaysGone(r: Run, i: nat, k: nat, id: string)
    requires r.Valid() && i <= k <= |r.calls|
    requires id in r.names[i] && JobAt(r, i, id).None?
    ensures id in r.names[k] && JobAt(r, k, id).None?
  {
    if i < k {
      var op := r.calls[k - 1].op;
      GoneStaysGone(r, i, k - 1, id);
      JobNext(r, k - 1, id);
      assert r.StepAt(k - 1);
      assert op.Enqueue? ==> op.freshId in Mints(op);
    }
  }

  /** What no call ever changes about a job; the clearance is only ever given. */
  predicate SameTask(a: Job, b: Job) {
    && a.id == b.id && a.requestId == b.requestId && a.to == b.to && a.from == b.from
    && a.payload == b.payload && a.enqueuedAt == b.enqueuedAt && a.ttl == b.ttl
    && a.maxAttempts == b.maxAttempts && a.policy == b.policy
    && (a.cleared ==> b.cleared)
  }

  lemma SweptSameTask(j: Job, now: int)
    ensures SameTask(j, SweepJob(j, now))
  {
  }

  lemma ActedSameTask(j: Job, now: int, act: JobOp)
    ensures SameTask(j, Act(j, now, act).job)
  {
  }

  /** A job found at two points of a run was there in between, as the same task. */
  lemma {:induction false} TaskKept(r: Run, i: nat, k: nat, id: string)
    requires r.Valid() && i <= k <= |r.calls|
    requires JobAt(r, i, id).Some? && JobAt(r, k, id).Some?
    ensures forall m :: i <= m <= k ==> JobAt(r, m, id).Some?
    ensures SameTask(JobAt(r, i, id).value, JobAt(r, k, id).value)
  {
    if i < k {
      FoundIsNamed(r, i, id);
      NamesGrow(r, i, k - 1);
      if JobAt(r, k - 1, id).None? {
        GoneStaysGone(r, k - 1, k, id);
      }
      TaskKept(r, i, k - 1, id);
      JobNext(r, k - 1, id);
      var c := r.calls[k - 1];
      var j := JobAt(r, k - 1, id).value;
      SweptSameTask(j, c.now);
      if c.op.OnJob? {
        ActedSameTask(SweepJob(j, c.now), c.now, c.op.act);
      }
    }
  }
}
