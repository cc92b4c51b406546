/** Timely heartbeats keep a job in its owner's hands. */
module Leases {
  import opened RelayTypes
  import opened JobSweep
  import opened StoreSteps
  import opened StoreRuns
  import opened JobLives
  import opened Fencing

  /** Call i is a heartbeat by the holder of this token. */
  predicate BeatsAt(r: Run, i: nat, id: string, token: string)
    requires i < |r.calls|
  {
    r.calls[i].op.OnJob? && r.calls[i].op.id == id && r.calls[i].op.act.HeartbeatOp? && r.calls[i].op.act.token == token
  }

  /** The lease end that the heartbeats among calls i..k leave behind, when the
      lease ran to `first` before call i: last heartbeat's reading plus its lease. */
  function LeaseEnd(r: Run, i: nat, k: nat, id: string, token: string, first: Option<int>): Option<int>
    requires i <= k <= |r.calls|
  {
    if i == k then first
    else if BeatsAt(r, k - 1, id, token) then
      var lease := r.calls[k - 1].op.act.leaseMs;
      if lease.Some? then Some(r.calls[k - 1].now + lease.value) else None
    else LeaseEnd(r, i, k - 1, id, token, first)
  }

  /** Call m leaves the claim alone: its sweep reads a clock no later than the lease
      end and the TTL, and it neither cancels the job nor settles this claim. */
  ghost predicate Leaves(r: Run, i: nat, m: nat, id: string, token: string, job: Job, first: Option<int>)
    requires i <= m < |r.calls|
  {
    var c := r.calls[m];
    && (LeaseEnd(r, i, m, id, token, first).Some? ==> c.now <= LeaseEnd(r, i, m, id, token, first).value)
    && !PastTtl(job, c.now)
    && (c.op.OnJob? && c.op.id == id ==> !c.op.act.CancelOp? && !c.op.act.Settles(token))
  }

  /** As long as every sweep up to the next heartbeat reads a clock within the lease
      of the last one, and nobody cancels, expires or settles the job, it is still
      held by the same token, with exactly that lease. */
  lemma {:induction false} HeartbeatsKeepOwnership(r: Run, i: nat, k: nat, id: string, token: string)
    requires r.Valid() && i <= k <= |r.calls| && HeldAt(r, i, id, token)
    requires var job := JobAt(r, i, id).value;
             forall m :: i <= m < k ==> Leaves(r, i, m, id, token, job, job.claim.value.expiresAt)
    ensures HeldAt(r, k, id, token)
    ensures var job := JobAt(r, i, id).value;
            JobAt(r, k, id).value.claim.value.expiresAt == LeaseEnd(r, i, k, id, token, job.claim.value.expiresAt)
  {
    if i < k {
      var first := JobAt(r, i, id).value;
      HeartbeatsKeepOwnership(r, i, k - 1, id, token);
      TaskKept(r, i, k - 1, id);
      assert Leaves(r, i, k - 1, id, token, first, first.claim.value.expiresAt);
      var j := JobAt(r, k - 1, id).value;
      var c := r.calls[k - 1];
      FoundIsNamed(r, k - 1, id);
      JobNext(r, k - 1, id);
      assert !Overdue(j, c.now);
      SweepMovesOverdue(j, c.now);
      HeldThroughOther(j, c, token);
    }
  }

  lemma HeldThroughOther(j: Job, c: Call, token: string)
    requires JobOk(j) && j.Holds(token) && SweepJob(j, c.now) == j
    requires c.op.OnJob? && c.op.id == j.id ==> !c.op.act.CancelOp? && !c.op.act.Settles(token)
    ensures Lived(j, c).Holds(token) && Lived(j, c).state.InFlight()
    ensures Lived(j, c).claim.value.expiresAt ==
            if c.op.OnJob? && c.op.id == j.id && c.op.act.HeartbeatOp? && c.op.act.token == token then
              Deadline(c.now, c.op.act.leaseMs)
            else j.claim.value.expiresAt
  {
  }
}
