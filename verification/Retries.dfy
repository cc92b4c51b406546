/** Bounded re-execution: how often one job can be claimed in a run. */
module Retries {
  import opened RelayTypes
  import opened JobSweep
  import opened StoreSteps
  import opened StoreRuns
  import opened JobLives

  datatype Deed = Claiming | Releasing | Recovering | Approving

  /** The operation, when accepted on this (swept) job, is such a deed; approving
      means approving a predeclared review. */
  predicate IsDeed(j: Job, act: JobOp, deed: Deed) {
    match deed
    case Claiming => act.ClaimOp?
    case Releasing => act.ReleaseOp?
    case Recovering => act.RecoverOp?
    case Approving => act.ResolveOp? && act.approve && j.reviewKind == Some(Predeclared)
  }

  ghost predicate DoneAt(r: Run, i: nat, id: string, deed: Deed)
    requires r.Shaped() && i < |r.calls|
  {
    Acts(r, i, id) && JobAt(r, i, id).Some? && IsDeed(JobAt(r, i, id).value, r.calls[i].op.act, deed)
  }

  /** How many of the first n calls did the deed to this job. */
  ghost function Tally(r: Run, n: nat, id: string, deed: Deed): nat
    requires r.Shaped() && n <= |r.calls|
  {
    if n == 0 then 0 else Tally(r, n - 1, id, deed) + if DoneAt(r, n - 1, id, deed) then 1 else 0
  }

  /** Claims, less releases, less a full allowance per recovery and approval. */
  ghost function Balance(r: Run, n: nat, id: string, m: int): int
    requires r.Shaped() && n <= |r.calls|
  {
    Tally(r, n, id, Claiming) - Tally(r, n, id, Releasing)
    - m * (Tally(r, n, id, Recovering) + Tally(r, n, id, Approving))
  }

  /** What an accepted operation adds to the balance. */
  function Weight(j: Job, act: JobOp): int {
    if act.ClaimOp? then 1
    else if act.ReleaseOp? then -1
    else if act.RecoverOp? || IsDeed(j, act, Approving) then -j.Allowance()
    else 0
  }

  /** How much of its allowance of attempts a job has used up. */
  function Spent(j: Job): int {
    if j.state.Terminal() then j.Allowance() else j.attempts + if j.state.InFlight() then 1 else 0
  }

  lemma {:induction false} NothingBeforeBirth(r: Run, n: nat, id: string, deed: Deed)
    requires r.Valid() && n <= |r.calls| && id !in r.names[n]
    ensures Tally(r, n, id, deed) == 0
  {
    if n > 0 {
      NamesGrow(r, n - 1, n);
      NothingBeforeBirth(r, n - 1, id, deed);
      if JobAt(r, n - 1, id).Some? {
        FoundIsNamed(r, n - 1, id);
      }
    }
  }

  lemma BalanceNext(r: Run, n: nat, id: string, m: int)
    requires r.Valid() && n < |r.calls| && JobAt(r, n, id).Some? && JobAt(r, n, id).value.Allowance() == m
    ensures Balance(r, n + 1, id, m) ==
            Balance(r, n, id, m) + if Acts(r, n, id) then Weight(JobAt(r, n, id).value, r.calls[n].op.act) else 0
  {
    var puts := Tally(r, n, id, Recovering) + Tally(r, n, id, Approving);
    assert m * (puts + 1) == m * puts + m;
  }

  lemma SweepSpends(j: Job, now: int)
    requires JobOk(j)
    ensures Spent(SweepJob(j, now)) >= Spent(j)
  {
  }

  /** No accepted operation weighs more than what the job spends on it. */
  lemma ActSpends(j: Job, now: int, act: JobOp)
    requires JobOk(j)
    ensures var acted := Act(j, now, act);
            Spent(acted.job) >= Spent(j) + if acted.changed then Weight(j, act) else 0
  {
  }

  lemma SweepKeepsKind(j: Job, now: int)
    ensures SweepJob(j, now).reviewKind == j.reviewKind && SweepJob(j, now).maxAttempts == j.maxAttempts
  {
  }

  lemma SpendsNext(r: Run, n: nat, id: string)
    requires r.Valid() && n < |r.calls| && JobAt(r, n, id).Some? && JobAt(r, n + 1, id).Some?
    ensures Spent(JobAt(r, n + 1, id).value) >=
            Spent(JobAt(r, n, id).value)
            + if Acts(r, n, id) then Weight(JobAt(r, n, id).value, r.calls[n].op.act) else 0
  {
    var c := r.calls[n];
    var j := JobAt(r, n, id).value;
    FoundIsNamed(r, n, id);
    SweepJobOk(j, c.now);
    SweepSpends(j, c.now);
    SweepKeepsKind(j, c.now);
    JobNext(r, n, id);
    if c.op.OnJob? && c.op.id == id {
      JobActs(r, n, id);
      ActSpends(SweepJob(j, c.now), c.now, c.op.act);
    }
  }

  /** The measure: the balance never exceeds what the job has spent. */
  lemma {:induction false} BalanceIsSpent(r: Run, n: nat, id: string)
    requires r.Valid() && n <= |r.calls| && JobAt(r, n, id).Some?
    ensures Balance(r, n, id, JobAt(r, n, id).value.Allowance()) <= Spent(JobAt(r, n, id).value)
  {
    if n > 0 {
      JobNext(r, n - 1, id);
      if JobAt(r, n - 1, id).None? {
        BornBalance(r, n - 1, id, JobAt(r, n, id).value.Allowance());
      } else {
        TaskKept(r, n - 1, n, id);
        BalanceIsSpent(r, n - 1, id);
        BalanceNext(r, n - 1, id, JobAt(r, n, id).value.Allowance());
        SpendsNext(r, n - 1, id);
      }
    }
  }

  lemma BornBalance(r: Run, n: nat, id: string, m: int)
    requires r.Valid() && n < |r.calls| && JobAt(r, n, id).None? && JobAt(r, n + 1, id).Some?
    ensures Balance(r, n + 1, id, m) == 0
  {
    JobNext(r, n, id);
    assert r.StepAt(n);
    assert id in Mints(r.calls[n].op);
    NothingBeforeBirth(r, n, id, Claiming);
    NothingBeforeBirth(r, n, id, Releasing);
    NothingBeforeBirth(r, n, id, Recovering);
    NothingBeforeBirth(r, n, id, Approving);
  }

  /** A retained job is claimed at most once per release, plus its allowance of
      attempts for each time it was put at the start: first enqueue, recovery, or approval
      of a predeclared review. */
  lemma ClaimsBounded(r: Run, n: nat, id: string)
    requires r.Valid() && n <= |r.calls| && JobAt(r, n, id).Some?
    ensures var limit := JobAt(r, n, id).value.maxAttempts; var allowance := if limit < 1 then 1 else limit;
            Tally(r, n, id, Claiming) <=
            Tally(r, n, id, Releasing)
            + allowance * (1 + Tally(r, n, id, Recovering) + Tally(r, n, id, Approving))
  {
    var j := JobAt(r, n, id).value;
    BalanceIsSpent(r, n, id);
    FoundIsNamed(r, n, id);
    SpentWithinAllowance(j);
    OneMore(j.Allowance(), Tally(r, n, id, Recovering) + Tally(r, n, id, Approving));
  }

  lemma SpentWithinAllowance(j: Job)
    requires JobOk(j)
    ensures Spent(j) <= j.Allowance()
  {
  }

  lemma OneMore(m: int, puts: nat)
    ensures m * (1 + puts) == m * puts + m
  {
  }
}
