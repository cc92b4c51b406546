/** Runs: any interleaving of store calls by any callers, each with its own
    clock reading, starting from an empty store. Ids and claim tokens are drawn
    fresh. Everything here holds for every run. */
module StoreRuns {
  import opened RelayTypes
  import opened JobSweep
  import opened StoreSteps

  const EMPTY := StoreData([], map[], map[])

  /** The id or token an operation draws from the generator. */
  function Mints(op: Op): set<string> {
    match op
    case Enqueue(_, _, _, _, _, _, _, freshId) => {freshId}
    case OnJob(_, ClaimOp(_, _, freshToken)) => {freshToken}
    case _ => {}
  }

  /** A name not drawn before: the seed itself when it is new. */
  function FreshName(used: set<string>, seed: string): (name: string)
    ensures name !in used && |name| >= |seed|
    decreases |used|
  {
    if seed !in used then seed else FreshName(used - {seed}, seed + "'")
  }

  /** The call can come next: its fresh name is new, and its required argument is
      there (otherwise the source throws before it touches the store). */
  predicate Possible(op: Op, names: set<string>) {
    && (forall n :: n in Mints(op) ==> n != "" && n !in names)
    && (op.Enqueue? ==> op.requestId != "")
    && (op.Register? ==> op.agent != "")
  }

  /** The calls made so far with their results, and before each call (and after the
      last) the store file and the names drawn. */
  datatype Run = Run(calls: seq<Call>, results: seq<StepResult>, stores: seq<StoreData>, names: seq<set<string>>)
  {
    ghost predicate Shaped() {
      |results| == |calls| && |stores| == |names| == |calls| + 1
    }

    ghost predicate StepAt(i: nat)
      requires Shaped() && i < |calls|
    {
      && Possible(calls[i].op, names[i])
      && names[i + 1] == names[i] + Mints(calls[i].op)
      && results[i] == Step(stores[i], calls[i])
      && stores[i + 1] == results[i].store
    }

    ghost predicate Valid() {
      && Shaped()
      && stores[0] == EMPTY
      && names[0] == {}
      && forall i :: 0 <= i < |calls| ==> StepAt(i)
    }

    ghost function Extend(c: Call): Run
      requires Shaped()
    {
      var result := Step(stores[|calls|], c);
      Run(calls + [c], results + [result], stores + [result.store], names + [names[|calls|] + Mints(c.op)])
    }
  }

  /** `later` is `r` with more calls after it. */
  ghost predicate Grows(r: Run, later: Run) {
    r.calls <= later.calls && r.results <= later.results && r.stores <= later.stores && r.names <= later.names
  }

  const START := Run([], [], [EMPTY], [{}])

  lemma ExtendValid(r: Run, c: Call)
    requires r.Valid() && Possible(c.op, r.names[|r.calls|])
    ensures r.Extend(c).Valid()
  {
    var e := r.Extend(c);
    forall i | 0 <= i < |e.calls|
      ensures e.StepAt(i)
    {
      if i < |r.calls| {
        assert r.StepAt(i);
      }
    }
  }

  lemma FirstEnqueue(c: Call)
    requires c.op.Enqueue?
    ensures var result := Step(EMPTY, c); var job := NewJob(c.op, c.now);
            result.store.jobs == [job] && result.reply == Enqueued(c.op.freshId, false, job) && result.changed
  {
    assert Opened(EMPTY, c.now, c.opts).jobs == [];
  }

  // ---- the structural invariant --------------------------------------------

  predicate JobOk(j: Job) {
    && (j.claim.Some? <==> j.state.InFlight())
    && (j.terminalAt.Some? <==> j.state.Terminal())
    && (j.state.NeedsReview? ==> j.reviewKind == Some(Predeclared) || j.reviewKind == Some(SelfFlagged))
    && (j.completedBy.Some? ==> j.state.Completed?)
    && 0 <= j.attempts
    && (!j.state.Terminal() ==> j.attempts < j.Allowance())
  }

  ghost predicate ListOk(jobs: seq<Job>, names: set<string>) {
    && UniqueIds(jobs)
    && UniqueRequests(jobs)
    && (forall j :: j in jobs ==> JobOk(j) && j.id != "" && j.requestId != "" && j.id in names)
    && (forall j :: j in jobs && j.claim.Some? ==> j.claim.value.token in names)
    && (forall a, b :: a in jobs && b in jobs && a.claim.Some? && b.Holds(a.claim.value.token) ==> a.id == b.id)
  }

  ghost predicate Inv(s: StoreData, names: set<string>) {
    ListOk(s.jobs, names) && s.index == IndexOf(s.jobs)
  }

  lemma SweepJobOk(j: Job, now: int)
    requires JobOk(j)
    ensures var k := SweepJob(j, now); JobOk(k) && k.id == j.id && k.requestId == j.requestId
    ensures var k := SweepJob(j, now); k.claim.Some? ==> k == j
  {
  }

  lemma ActJobOk(j: Job, now: int, act: JobOp)
    requires JobOk(j)
    ensures var k := Act(j, now, act).job;
            JobOk(k) && k.id == j.id && k.requestId == j.requestId
            && (k.claim.Some? ==>
                  (act.ClaimOp? && j.state.Queued? && k.Holds(act.freshToken))
                  || (j.claim.Some? && k.Holds(j.claim.value.token)))
  {
  }

  lemma SweepListOk(jobs: seq<Job>, now: int, names: set<string>)
    requires ListOk(jobs, names)
    ensures ListOk(SweepJobs(jobs, now), names)
  {
    var swept := SweepJobs(jobs, now);
    forall i | 0 <= i < |jobs|
      ensures JobOk(swept[i]) && swept[i].id == jobs[i].id && swept[i].requestId == jobs[i].requestId
      ensures swept[i].claim.Some? ==> swept[i] == jobs[i]
    {
      assert jobs[i] in jobs;
      SweepJobOk(jobs[i], now);
    }
    forall j | j in swept
      ensures JobOk(j) && j.id != "" && j.requestId != "" && j.id in names
      ensures j.claim.Some? ==> j in jobs
    {
      var i :| 0 <= i < |swept| && swept[i] == j;
      assert jobs[i] in jobs;
    }
  }

  lemma FilterListOk(jobs: seq<Job>, sieve: Sieve, names: set<string>)
    requires ListOk(jobs, names)
    ensures ListOk(Filter(jobs, sieve), names)
  {
    FilterMembers(jobs, sieve);
    FilterUnique(jobs, sieve);
  }

  /** Loading drops nothing, and opening a store keeps the invariant. */
  lemma OpenedInv(s: StoreData, now: int, opts: Opts, names: set<string>)
    requires Inv(s, names)
    ensures Filter(s.jobs, HasId) == s.jobs
    ensures ListOk(SweepJobs(s.jobs, now), names)
    ensures Inv(Opened(s, now, opts), names)
  {
    FilterAll(s.jobs, HasId);
    SweepListOk(s.jobs, now, names);
    var kept := Filter(SweepJobs(s.jobs, now), WithinRetention(now, opts.retentionMs));
    FilterListOk(SweepJobs(s.jobs, now), WithinRetention(now, opts.retentionMs), names);
    if |kept| > opts.maxJobs {
      FilterListOk(kept, NotDropped(Evicted(kept, opts.maxJobs)), names);
    }
  }

  /** The index finds exactly what a linear search by request id finds. */
  lemma {:induction false} IndexFindsAll(jobs: seq<Job>)
    requires UniqueRequests(jobs) && forall j :: j in jobs ==> j.requestId != ""
    ensures forall r :: r in IndexOf(jobs) <==> exists j :: j in jobs && j.requestId == r
    ensures forall j :: j in jobs ==> j.requestId in IndexOf(jobs) && IndexOf(jobs)[j.requestId] == j.id
  {
    if jobs != [] {
      var last := |jobs| - 1;
      assert jobs == jobs[..last] + [jobs[last]];
      assert jobs[last] in jobs;
      IndexFindsAll(jobs[..last]);
    }
  }

  lemma IndexAppend(jobs: seq<Job>, job: Job)
    requires job.requestId != ""
    ensures IndexOf(jobs + [job]) == IndexOf(jobs)[job.requestId := job.id]
  {
    assert (jobs + [job])[..|jobs|] == jobs;
  }

  lemma {:induction false} IndexUpdate(jobs: seq<Job>, i: nat, job: Job)
    requires i < |jobs| && job.id == jobs[i].id && job.requestId == jobs[i].requestId
    ensures IndexOf(jobs[i := job]) == IndexOf(jobs)
  {
    var last := |jobs| - 1;
    if i < last {
      IndexUpdate(jobs[..last], i, job);
      assert jobs[i := job][..last] == jobs[..last][i := job];
    } else {
      assert jobs[i := job][..last] == jobs[..last];
    }
  }

  lemma FindMember(jobs: seq<Job>, j: Job)
    requires UniqueIds(jobs) && j in jobs
    ensures Find(jobs, j.id) == Some(j)
  {
    var k :| 0 <= k < |jobs| && jobs[k] == j;
  }

  lemma AppendListOk(jobs: seq<Job>, job: Job, names: set<string>, minted: set<string>)
    requires ListOk(jobs, names) && JobOk(job) && job.claim.None?
    requires job.id != "" && job.id !in names && job.id in minted
    requires job.requestId != "" && forall j :: j in jobs ==> j.requestId != job.requestId
    ensures ListOk(jobs + [job], names + minted)
  {
    forall i | 0 <= i < |jobs|
      ensures jobs[i].id != job.id && jobs[i].requestId != job.requestId
    {
      assert jobs[i] in jobs;
    }
  }

  /** An enqueue adds a job exactly when no retained job has its request id. */
  lemma EnqueueAdds(s: StoreData, now: int, op: Op, names: set<string>)
    requires Inv(s, names) && op.Enqueue?
    ensures Apply(s, now, op).changed <==> forall j :: j in s.jobs ==> j.requestId != op.requestId
    ensures Apply(s, now, op).changed ==>
              Apply(s, now, op) ==
              StepResult(StoreData(s.jobs + [NewJob(op, now)], s.index[op.requestId := op.freshId], s.agents),
                                              Enqueued(op.freshId, false, NewJob(op, now)), true)
    ensures !Apply(s, now, op).changed ==> Apply(s, now, op).store == s
  {
    IndexFindsAll(s.jobs);
    if op.requestId in s.index {
      var j :| j in s.jobs && j.requestId == op.requestId;
      FindMember(s.jobs, j);
    }
  }

  lemma EnqueueInv(s: StoreData, now: int, op: Op, names: set<string>)
    requires Inv(s, names) && op.Enqueue? && Possible(op, names)
    ensures Inv(Apply(s, now, op).store, names + Mints(op))
  {
    EnqueueAdds(s, now, op, names);
    if Apply(s, now, op).changed {
      assert op.freshId in Mints(op);
      IndexAppend(s.jobs, NewJob(op, now));
      AppendListOk(s.jobs, NewJob(op, now), names, Mints(op));
    }
  }

  lemma OnJobInv(s: StoreData, now: int, op: Op, names: set<string>)
    requires Inv(s, names) && op.OnJob? && Possible(op, names)
    ensures Inv(Apply(s, now, op).store, names + Mints(op))
  {
    var i := Position(s.jobs, op.id);
    if i < |s.jobs| {
      assert s.jobs[i] in s.jobs;
      assert op.act.ClaimOp? ==> op.act.freshToken in Mints(op);
      var job := Act(s.jobs[i], now, op.act).job;
      ActJobOk(s.jobs[i], now, op.act);
      IndexUpdate(s.jobs, i, job);
      UpdateListOk(s.jobs, i, job, names, Mints(op));
    }
  }

  lemma UpdateListOk(jobs: seq<Job>, i: nat, job: Job, names: set<string>, minted: set<string>)
    requires ListOk(jobs, names) && i < |jobs| && JobOk(job)
    requires job.id == jobs[i].id && job.requestId == jobs[i].requestId
    requires job.claim.Some? ==>
               (job.claim.value.token in minted && job.claim.value.token !in names)
               || (jobs[i].claim.Some? && job.Holds(jobs[i].claim.value.token))
    ensures ListOk(jobs[i := job], names + minted)
  {
    var updated := jobs[i := job];
    assert jobs[i] in jobs;
    forall j | j in updated
      ensures j == job || j in jobs
    {
      var k :| 0 <= k < |updated| && updated[k] == j;
    }
  }

  lemma ApplyInv(s: StoreData, now: int, op: Op, names: set<string>)
    requires Inv(s, names) && Possible(op, names)
    ensures Inv(Apply(s, now, op).store, names + Mints(op))
  {
    if op.Enqueue? {
      EnqueueInv(s, now, op, names);
    } else if op.OnJob? {
      OnJobInv(s, now, op, names);
    } else {
      assert Apply(s, now, op).store.jobs == s.jobs && Mints(op) == {};
    }
  }

  lemma StepInv(s: StoreData, c: Call, names: set<string>)
    requires Inv(s, names) && Possible(c.op, names)
    ensures Inv(Step(s, c).store, names + Mints(c.op))
  {
    OpenedInv(s, c.now, c.opts, names);
    ApplyInv(Opened(s, c.now, c.opts), c.now, c.op, names);
  }

  /** Every reachable store satisfies the structural invariant. */
  lemma {:induction false} RunInv(r: Run, i: nat)
    requires r.Valid() && i <= |r.calls|
    ensures Inv(r.stores[i], r.names[i])
  {
    if i > 0 {
      RunInv(r, i - 1);
      assert r.StepAt(i - 1);
      StepInv(r.stores[i - 1], r.calls[i - 1], r.names[i - 1]);
    }
  }

  lemma {:induction false} NamesGrow(r: Run, i: nat, k: nat)
    requires r.Valid() && i <= k <= |r.calls|
    ensures r.names[i] <= r.names[k]
  {
    if i < k {
      NamesGrow(r, i, k - 1);
      assert r.StepAt(k - 1);
    }
  }

  // ---- sweep and persistence -----------------------------------------------

  /** Sweeping any jobs of a swept list again, at the same reading, does nothing. */
  lemma SweptStays(jobs: seq<Job>, kept: seq<Job>, now: int)
    requires forall j :: j in kept ==> j in SweepJobs(jobs, now)
    ensures forall j :: j in kept ==> !Overdue(j, now)
    ensures SweepJobs(kept, now) == kept
  {
    var swept := SweepJobs(jobs, now);
    forall j | j in kept
      ensures !Overdue(j, now) && SweepJob(j, now) == j
    {
      var i :| 0 <= i < |swept| && swept[i] == j;
      SweptIsSettled(jobs[i], now);
    }
    forall i | 0 <= i < |kept|
      ensures SweepJob(kept[i], now) == kept[i]
    {
      assert kept[i] in kept;
    }
  }

  /** One opening settles the store: at the same reading nothing is overdue any
      more, and opening it again changes nothing. */
  lemma OpenedIsSettled(s: StoreData, now: int, opts: Opts, names: set<string>)
    requires Inv(s, names)
    ensures var o := Opened(s, now, opts);
            (forall j :: j in o.jobs ==> !Overdue(j, now)) && Opened(o, now, opts) == o
  {
    var swept := SweepJobs(s.jobs, now);
    var o := Opened(s, now, opts);
    OpenedInv(s, now, opts, names);
    PruneIsConservative(swept, now, opts);
    SweptStays(s.jobs, o.jobs, now);
    FilterAll(o.jobs, HasId);
    PruneIdempotent(swept, now, opts);
  }

  /** An operation that reports no change has not touched a job in a valid state;
      in particular the review branch that writes and then refuses is never taken. */
  lemma UnchangedActKeeps(j: Job, now: int, act: JobOp)
    requires JobOk(j) && !Act(j, now, act).changed
    ensures Act(j, now, act).job == j
  {
  }

  /** Lazy persistence is sound: a call whose sweep and operation both report no
      change would write back exactly what it loaded. */
  lemma UnchangedStepKeeps(s: StoreData, c: Call, names: set<string>)
    requires Inv(s, names) && Possible(c.op, names)
    requires Opened(s, c.now, c.opts).jobs == s.jobs && !Step(s, c).changed
    ensures Step(s, c).store == s
  {
    if c.op.Enqueue? {
      EnqueueAdds(s, c.now, c.op, names);
    } else if c.op.OnJob? {
      var i := Position(s.jobs, c.op.id);
      if i < |s.jobs| {
        assert s.jobs[i] in s.jobs;
        UnchangedActKeeps(s.jobs[i], c.now, c.op.act);
      }
    }
  }
}
