/** Fencing over whole runs: what a claim token can do, and for how long. */
module Fencing {
  import opened RelayTypes
  import opened JobSweep
  import opened StoreSteps
  import opened StoreRuns
  import opened JobLives

  /** Some job in the store is claimed under this token. */
  ghost predicate Live(s: StoreData, token: string) {
    exists j :: j in s.jobs && j.Holds(token)
  }

  /** The job is there before call i and its claim carries the token. */
  ghost predicate HeldAt(r: Run, i: nat, id: string, token: string)
    requires r.Shaped() && i <= |r.calls|
  {
    JobAt(r, i, id).Some? && JobAt(r, i, id).value.Holds(token)
  }

  /** Call i is the accepted claim of this job that drew the token. */
  ghost predicate ClaimsAt(r: Run, i: nat, id: string, token: string)
    requires r.Shaped() && i < |r.calls|
  {
    Acts(r, i, id) && r.calls[i].op.act.ClaimOp? && r.calls[i].op.act.freshToken == token
  }

  ghost predicate CarriesAt(r: Run, i: nat, token: string)
    requires r.Shaped() && i < |r.calls|
  {
    r.calls[i].op.OnJob? && r.calls[i].op.act.Carries(token)
  }

  lemma ClaimSurvives(j: Job, c: Call, token: string)
    requires JobOk(j) && Lived(j, c).Holds(token)
    ensures j.Holds(token)
            || (c.op.OnJob? && c.op.id == j.id && c.op.act.ClaimOp? && c.op.act.freshToken == token
                && SweepJob(j, c.now).state.Queued?)
  {
    SweepJobOk(j, c.now);
    if c.op.OnJob? {
      ActJobOk(SweepJob(j, c.now), c.now, c.op.act);
    }
  }

  /** A token is held after a call only if it was held before, or was just drawn. */
  lemma HeldNext(r: Run, i: nat, id: string, token: string)
    requires r.Valid() && i < |r.calls| && HeldAt(r, i + 1, id, token)
    ensures HeldAt(r, i, id, token) || ClaimsAt(r, i, id, token)
  {
    JobNext(r, i, id);
    var before := JobAt(r, i, id);
    FoundIsNamed(r, i + 1, id);
    if before.Some? {
      FoundIsNamed(r, i, id);
      ClaimSurvives(before.value, r.calls[i], token);
      if !before.value.Holds(token) {
        JobActs(r, i, id);
      }
    }
  }

  lemma LiveIsHeld(r: Run, i: nat, token: string)
    requires r.Valid() && i <= |r.calls|
    ensures Live(r.stores[i], token) <==> exists id :: HeldAt(r, i, id, token)
  {
    RunInv(r, i);
    var jobs := r.stores[i].jobs;
    if Live(r.stores[i], token) {
      var j :| j in jobs && j.Holds(token);
      FindMember(jobs, j);
      assert HeldAt(r, i, j.id, token);
    }
    if id :| HeldAt(r, i, id, token) {
      FindSpec(jobs, id);
    }
  }

  lemma HeldIsNamed(r: Run, i: nat, id: string, token: string)
    requires r.Valid() && i <= |r.calls| && HeldAt(r, i, id, token)
    ensures token in r.names[i]
  {
    RunInv(r, i);
    FindSpec(r.stores[i].jobs, id);
  }

  lemma HeldByOne(r: Run, i: nat, a: string, b: string, token: string)
    requires r.Valid() && i <= |r.calls| && HeldAt(r, i, a, token) && HeldAt(r, i, b, token)
    ensures a == b
  {
    RunInv(r, i);
    FindSpec(r.stores[i].jobs, a);
    FindSpec(r.stores[i].jobs, b);
  }

  lemma ClaimDrawsFresh(r: Run, i: nat, id: string, token: string)
    requires r.Valid() && i < |r.calls| && ClaimsAt(r, i, id, token)
    ensures token !in r.names[i] && token in r.names[i + 1]
  {
    assert r.StepAt(i);
    assert token in Mints(r.calls[i].op);
  }

  lemma DrawnOnce(r: Run, i: nat, k: nat, a: string, b: string, token: string)
    requires r.Valid() && i < |r.calls| && k < |r.calls| && ClaimsAt(r, i, a, token) && ClaimsAt(r, k, b, token)
    ensures i == k && a == b
  {
    ClaimDrawsFresh(r, i, a, token);
    ClaimDrawsFresh(r, k, b, token);
    if i < k {
      NamesGrow(r, i + 1, k);
    } else if k < i {
      NamesGrow(r, k + 1, i);
    }
  }

  lemma NotHeldNext(r: Run, i: nat, id: string, token: string)
    requires r.Valid() && i < |r.calls| && !HeldAt(r, i, id, token) && token in r.names[i]
    ensures !HeldAt(r, i + 1, id, token)
  {
    var op := r.calls[i].op;
    assert r.StepAt(i);
    assert op.OnJob? && op.act.ClaimOp? ==> op.act.freshToken in Mints(op);
    if HeldAt(r, i + 1, id, token) {
      HeldNext(r, i, id, token);
    }
  }

  /** Once drawn and no longer live, a token is dead for good. */
  lemma {:induction false} DeadStaysDead(r: Run, i: nat, k: nat, token: string)
    requires r.Valid() && i <= k <= |r.calls|
    requires token in r.names[i] && !Live(r.stores[i], token)
    ensures token in r.names[k] && !Live(r.stores[k], token)
  {
    if i < k {
      DeadStaysDead(r, i, k - 1, token);
      NamesGrow(r, k - 1, k);
      LiveIsHeld(r, k - 1, token);
      LiveIsHeld(r, k, token);
      forall id
        ensures !HeldAt(r, k, id, token)
      {
        NotHeldNext(r, k - 1, id, token);
      }
    }
  }

  /** An accepted fenced call means its token was held up to that call; an accepted
      settling call also ends the claim. */
  lemma AcceptedNeedsClaim(r: Run, i: nat, token: string)
    requires r.Valid() && i < |r.calls| && CarriesAt(r, i, token) && Acts(r, i, r.calls[i].op.id)
    ensures HeldAt(r, i, r.calls[i].op.id, token)
    ensures r.calls[i].op.act.Settles(token) ==>
              JobAt(r, i + 1, r.calls[i].op.id).Some? && JobAt(r, i + 1, r.calls[i].op.id).value.claim.None?
    ensures !r.calls[i].op.act.Settles(token) ==> HeldAt(r, i + 1, r.calls[i].op.id, token)
  {
    var c := r.calls[i];
    var id := c.op.id;
    JobActs(r, i, id);
    FoundIsNamed(r, i, id);
    SweepJobOk(JobAt(r, i, id).value, c.now);
    FencedAct(SweepJob(JobAt(r, i, id).value, c.now), c.now, c.op.act, token);
  }

  lemma FencedAct(j: Job, now: int, act: JobOp, token: string)
    requires JobOk(j) && act.Carries(token) && Act(j, now, act).changed
    ensures j.Holds(token)
    ensures act.Settles(token) ==> Act(j, now, act).job.claim.None?
    ensures !act.Settles(token) ==> Act(j, now, act).job.Holds(token)
  {
  }

  lemma {:induction false} HeldSinceClaim(r: Run, i: nat, id: string, token: string)
    requires r.Valid() && i <= |r.calls| && HeldAt(r, i, id, token)
    ensures exists c: nat :: c < i && ClaimsAt(r, c, id, token) && forall k :: c < k <= i ==> HeldAt(r, k, id, token)
  {
    if i == 0 {
      assert false;
    } else {
      HeldNext(r, i - 1, id, token);
      if HeldAt(r, i - 1, id, token) {
        HeldSinceClaim(r, i - 1, id, token);
        var c: nat :| c < i - 1 && ClaimsAt(r, c, id, token) && forall k :: c < k <= i - 1 ==> HeldAt(r, k, id, token);
        assert forall k :: c < k <= i ==> HeldAt(r, k, id, token);
      } else {
        assert forall k :: i - 1 < k <= i ==> HeldAt(r, k, id, token);
      }
    }
  }

  /** A token works only inside its own claim: every accepted call that carries it
      comes after the claim that drew it, and the job was held under it without a
      break from that claim up to the call. */
  lemma FencingWindow(r: Run, i: nat, token: string)
    requires r.Valid() && i < |r.calls| && CarriesAt(r, i, token) && Acts(r, i, r.calls[i].op.id)
    ensures var id := r.calls[i].op.id;
            exists c: nat :: c < i && ClaimsAt(r, c, id, token) && forall k :: c < k <= i ==> HeldAt(r, k, id, token)
  {
    AcceptedNeedsClaim(r, i, token);
    HeldSinceClaim(r, i, r.calls[i].op.id, token);
  }

  /** At most one settling call per token is accepted in a whole run, and nothing
      that carries the token is accepted after it. */
  lemma SettlesOnce(r: Run, i: nat, k: nat, token: string)
    requires r.Valid() && i < k < |r.calls|
    requires CarriesAt(r, i, token) && Acts(r, i, r.calls[i].op.id) && r.calls[i].op.act.Settles(token)
    requires CarriesAt(r, k, token)
    ensures !Acts(r, k, r.calls[k].op.id)
  {
    SettledIsDead(r, i, token);
    DeadStaysDead(r, i + 1, k, token);
    LiveIsHeld(r, k, token);
    if Acts(r, k, r.calls[k].op.id) {
      AcceptedNeedsClaim(r, k, token);
    }
  }

  lemma SettledIsDead(r: Run, i: nat, token: string)
    requires r.Valid() && i < |r.calls|
    requires CarriesAt(r, i, token) && Acts(r, i, r.calls[i].op.id) && r.calls[i].op.act.Settles(token)
    ensures token in r.names[i + 1] && !Live(r.stores[i + 1], token)
  {
    var id := r.calls[i].op.id;
    AcceptedNeedsClaim(r, i, token);
    HeldIsNamed(r, i, id, token);
    assert r.StepAt(i);
    LiveIsHeld(r, i + 1, token);
    var next := i + 1;
    if other :| HeldAt(r, next, other, token) {
      HeldNext(r, i, other, token);
      HeldByOne(r, i, id, other, token);
      assert false;
    }
  }

  /** Completed, failed, cancelled and expired jobs are frozen: to the end of the
      run the record is bit for bit the same, or pruned. */
  lemma {:induction false} SettledIsFrozen(r: Run, i: nat, k: nat, id: string)
    requires r.Valid() && i <= k <= |r.calls|
    requires JobAt(r, i, id).Some? && JobAt(r, i, id).value.state.Prunable()
    ensures JobAt(r, k, id) == JobAt(r, i, id) || JobAt(r, k, id).None?
  {
    if i < k {
      SettledIsFrozen(r, i, k - 1, id);
      FoundIsNamed(r, i, id);
      NamesGrow(r, i, k - 1);
      if JobAt(r, k - 1, id).None? {
        GoneStaysGone(r, k - 1, k, id);
      } else {
        JobNext(r, k - 1, id);
        FrozenNext(JobAt(r, i, id).value, r.calls[k - 1]);
      }
    }
  }

  lemma FrozenNext(j: Job, c: Call)
    requires j.state.Prunable()
    ensures Lived(j, c) == j
  {
  }
}
