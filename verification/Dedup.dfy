/** Deduplication by request id, over whole runs. */
module Dedup {
  import opened RelayTypes
  import opened StoreSteps
  import opened StoreRuns
  import opened JobLives

  /** Linear search of the job list for a request id. */
  function Search(jobs: seq<Job>, requestId: string): Option<string> {
    if jobs == [] then None
    else if jobs[0].requestId == requestId then Some(jobs[0].id)
    else Search(jobs[1..], requestId)
  }

  lemma {:induction false} SearchSpec(jobs: seq<Job>, requestId: string)
    ensures Search(jobs, requestId).None? <==> forall j :: j in jobs ==> j.requestId != requestId
    ensures Search(jobs, requestId).Some? ==>
              exists j :: j in jobs && j.requestId == requestId && Search(jobs, requestId) == Some(j.id)
  {
    if jobs != [] {
      SearchSpec(jobs[1..], requestId);
      assert jobs == [jobs[0]] + jobs[1..];
      assert jobs[0] in jobs;
    }
  }

  /** In every reachable store the index answers what a search of the list would. */
  lemma IndexRefinesSearch(r: Run, i: nat, requestId: string)
    requires r.Valid() && i <= |r.calls|
    ensures var s := r.stores[i];
            Search(s.jobs, requestId) == if requestId in s.index then Some(s.index[requestId]) else None
  {
    RunInv(r, i);
    var jobs := r.stores[i].jobs;
    IndexFindsAll(jobs);
    SearchSpec(jobs, requestId);
  }

  ghost predicate EnqueuesAt(r: Run, i: nat, requestId: string)
    requires r.Shaped() && i < |r.calls|
  {
    r.calls[i].op.Enqueue? && r.calls[i].op.requestId == requestId
  }

  /** A fresh record of this enqueue: queued, as asked for, and with nothing done yet. */
  predicate IsNewJob(j: Job, c: Call)
    requires c.op.Enqueue?
  {
    && j.id == c.op.freshId && j.requestId == c.op.requestId && j.state.Queued?
    && j.to == c.op.to && j.from == c.op.from && j.payload == c.op.payload && j.policy == c.op.policy
    && j.ttl == c.op.ttl && j.maxAttempts == (if c.op.maxAttempts.Some? then c.op.maxAttempts.value else 5)
    && j.enqueuedAt == c.now && j.updatedAt == c.now && j.terminalAt.None?
    && j.attempts == 0 && j.claim.None? && j.completedBy.None? && j.result.None? && j.error.None?
    && j.riskReason.None? && j.reviewKind.None? && j.reviewBy.None? && j.reviewAt.None? && j.reviewNote.None?
       && !j.cleared
  }

  lemma EnqueueReply(r: Run, i: nat, requestId: string)
    requires r.Valid() && i < |r.calls| && EnqueuesAt(r, i, requestId)
    ensures var s := Opened(r.stores[i], r.calls[i].now, r.calls[i].opts); var reply := r.results[i].reply;
            reply.Enqueued? && reply.job.id == reply.jobId && reply.job.requestId == requestId
            && JobAt(r, i + 1, reply.jobId) == Some(reply.job)
            && (reply.deduped ==> r.results[i].store == s && Find(s.jobs, reply.jobId) == Some(reply.job))
            && (!reply.deduped ==>
                  IsNewJob(reply.job, r.calls[i]) && forall j :: j in s.jobs ==> j.requestId != requestId)
  {
    var c := r.calls[i];
    var s := Opened(r.stores[i], c.now, c.opts);
    assert r.StepAt(i);
    RunInv(r, i);
    OpenedInv(r.stores[i], c.now, c.opts, r.names[i]);
    EnqueueAdds(s, c.now, c.op, r.names[i]);
    FindApplied(s, c.now, c.op, r.names[i], c.op.freshId);
    FreshIdNotFound(s, c.op, r.names[i]);
    IndexFindsAll(s.jobs);
    if requestId in s.index {
      var j :| j in s.jobs && j.requestId == requestId;
      FindMember(s.jobs, j);
    }
  }

  /** While the job a request was answered with is retained, every later enqueue of
      that request answers with the same job and adds none, whatever happened in
      between. */
  lemma RepeatIsDeduped(r: Run, i: nat, k: nat, requestId: string)
    requires r.Valid() && i < k < |r.calls|
    requires EnqueuesAt(r, i, requestId) && EnqueuesAt(r, k, requestId)
    requires r.results[i].reply.Enqueued?
    requires Find(Opened(r.stores[k], r.calls[k].now, r.calls[k].opts).jobs, r.results[i].reply.jobId).Some?
    ensures r.results[k].reply.Enqueued? && r.results[k].reply.deduped
    ensures r.results[k].reply.jobId == r.results[i].reply.jobId && !r.results[k].changed
  {
    var id := r.results[i].reply.jobId;
    EnqueueReply(r, i, requestId);
    EnqueueReply(r, k, requestId);
    RequestKept(r, i + 1, k, id);
    RequestIsUnique(r, k, id, requestId);
  }

  lemma RequestKept(r: Run, i: nat, k: nat, id: string)
    requires r.Valid() && i <= k < |r.calls| && JobAt(r, i, id).Some?
    requires Find(Opened(r.stores[k], r.calls[k].now, r.calls[k].opts).jobs, id).Some?
    ensures Find(Opened(r.stores[k], r.calls[k].now, r.calls[k].opts).jobs, id).value.requestId ==
            JobAt(r, i, id).value.requestId
  {
    RunInv(r, k);
    FindOpened(r.stores[k], r.calls[k].now, r.calls[k].opts, r.names[k], id);
    TaskKept(r, i, k, id);
    SweptSameTask(JobAt(r, k, id).value, r.calls[k].now);
  }

  lemma RequestIsUnique(r: Run, k: nat, id: string, requestId: string)
    requires r.Valid() && k < |r.calls| && EnqueuesAt(r, k, requestId)
    requires var s := Opened(r.stores[k], r.calls[k].now, r.calls[k].opts);
             Find(s.jobs, id).Some? && Find(s.jobs, id).value.requestId == requestId
    ensures var reply := r.results[k].reply;
            reply.Enqueued? && reply.deduped && reply.jobId == id && !r.results[k].changed
  {
    var c := r.calls[k];
    var s := Opened(r.stores[k], c.now, c.opts);
    assert r.StepAt(k);
    RunInv(r, k);
    OpenedInv(r.stores[k], c.now, c.opts, r.names[k]);
    FindSpec(s.jobs, id);
    IndexFindsAll(s.jobs);
    EnqueueAdds(s, c.now, c.op, r.names[k]);
  }
}
