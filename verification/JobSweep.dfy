/** The sweep that precedes every store operation: TTL and lease expiry of each
    job, then retention and the hard cap. */
module JobSweep {
  import opened RelayTypes

  const TTL_PARKED := "ttl expired while a park job was in flight: recover() required"
  const LEASE_PARKED := "lease expired on a park job: recover() required"
  const ATTEMPTS_EXHAUSTED := "lease expired on the last attempt"

  // ---- expiry of one job ---------------------------------------------------

  predicate PastTtl(j: Job, now: int) {
    j.ttl.Some? && now - j.enqueuedAt > j.ttl.value
  }

  predicate PastLease(j: Job, now: int) {
    j.state.InFlight() && j.claim.Some? && j.claim.value.expiresAt.Some? && now > j.claim.value.expiresAt.value
  }

  /** The sweep has something to do for this job, and will log an event for it. */
  predicate Overdue(j: Job, now: int) {
    !j.state.Terminal() && (PastTtl(j, now) || PastLease(j, now))
  }

  function SweepJob(j: Job, now: int): Job {
    if j.state.Terminal() then j
    else if PastTtl(j, now) then
      if j.state.InFlight() && j.policy.Park? then
        j.(state := NeedsRecovery, error := Some(TTL_PARKED), terminalAt := Some(now), updatedAt := now, claim := None)
      else
        j.(state := Expired, terminalAt := Some(now), updatedAt := now, claim := None)
    else if PastLease(j, now) then
      if j.policy.Park? then
        j.(state := NeedsRecovery, error := Some(LEASE_PARKED), terminalAt := Some(now), updatedAt := now,
           claim := None)
      else if j.attempts + 1 >= j.maxAttempts then
        j.(state := Failed, error := Some(ATTEMPTS_EXHAUSTED), terminalAt := Some(now), updatedAt := now,
           claim := None, attempts := j.attempts + 1)
      else
        j.(state := Queued, updatedAt := now, claim := None, attempts := j.attempts + 1)
    else j
  }

  /** What expiry makes of a record, as a table: past its TTL an unsettled job waits
      for recovery if it is in flight under policy park, and expires otherwise; within
      its TTL an in-flight job past its lease waits for recovery under park, and under
      requeue has one more attempt, and is queued while attempts are left; every other
      record is untouched. */
  predicate ExpiresTo(j: Job, now: int, k: Job) {
    var inFlight := j.state.Claimed? || j.state.Running?;
    var late := (j.state.Queued? || inFlight) && j.ttl.Some? && now - j.enqueuedAt > j.ttl.value;
    var lapsed := !late && inFlight && j.claim.Some? && j.claim.value.expiresAt.Some?
      && now > j.claim.value.expiresAt.value;
    && (late && inFlight && j.policy.Park? ==>
          k == j.(state := NeedsRecovery, error := Some(TTL_PARKED), claim := None, terminalAt := Some(now),
                  updatedAt := now))
    && (late && !(inFlight && j.policy.Park?) ==>
          k == j.(state := Expired, claim := None, terminalAt := Some(now), updatedAt := now))
    && (lapsed && j.policy.Park? ==>
          k == j.(state := NeedsRecovery, error := Some(LEASE_PARKED), claim := None, terminalAt := Some(now),
                  updatedAt := now))
    && (lapsed && j.policy.Requeue? && j.attempts + 1 < j.maxAttempts ==>
          k == j.(state := Queued, attempts := j.attempts + 1, claim := None, updatedAt := now))
    && (lapsed && j.policy.Requeue? && j.attempts + 1 >= j.maxAttempts ==>
          k == j.(state := Failed, attempts := j.attempts + 1, error := Some(ATTEMPTS_EXHAUSTED), claim := None,
                  terminalAt := Some(now), updatedAt := now))
    && (!late && !lapsed ==> k == j)
  }

  /** The sweep of one job is that table, no more and no less. */
  lemma ExpiryTable(j: Job, now: int, k: Job)
    ensures ExpiresTo(j, now, k) <==> k == SweepJob(j, now)
  {
  }

  function SweepJobs(jobs: seq<Job>, now: int): (swept: seq<Job>)
    ensures |swept| == |jobs|
    ensures forall i :: 0 <= i < |jobs| ==> swept[i] == SweepJob(jobs[i], now)
  {
    seq(|jobs|, i requires 0 <= i < |jobs| => SweepJob(jobs[i], now))
  }

  /** A job changes in a sweep exactly when the sweep logs an event for it. */
  lemma SweepMovesOverdue(j: Job, now: int)
    ensures SweepJob(j, now) != j <==> Overdue(j, now)
  {
    if Overdue(j, now) {
      assert SweepJob(j, now).state != j.state;
    }
  }

  /** One pass is enough: nothing is overdue afterwards at the same reading. */
  lemma SweptIsSettled(j: Job, now: int)
    ensures !Overdue(SweepJob(j, now), now)
    ensures SweepJob(SweepJob(j, now), now) == SweepJob(j, now)
  {
    if Overdue(j, now) {
      assert SweepJob(j, now).state.Terminal() || (SweepJob(j, now).claim.None? && !PastTtl(j, now));
    }
    SweepMovesOverdue(j, now);
  }

  function SweepAt(j: Job, times: seq<int>): Job {
    if times == [] then j else SweepJob(SweepAt(j, times[..|times| - 1]), times[|times| - 1])
  }

  /** However often and at whatever clock readings it is swept, an in-flight park
      job is untouched or waits for recovery, with its attempt count kept. */
  lemma {:induction false} ParkedOrUntouched(j: Job, times: seq<int>)
    requires j.state.InFlight() && j.policy.Park?
    ensures var k := SweepAt(j, times);
            k == j || (k.state.NeedsRecovery? && k.claim.None? && k.attempts == j.attempts && k.payload == j.payload)
  {
    if times != [] {
      ParkedOrUntouched(j, times[..|times| - 1]);
    }
  }

  // ---- filters -------------------------------------------------------------

  /** The conditions the store filters its job list by. */
  datatype Sieve =
    | HasId
    | WithinRetention(now: int, retentionMs: int)
    | IsPrunable
    | NotDropped(ids: set<string>)
    | InInbox(agent: string)
  {
    predicate Passes(j: Job) {
      match this
      case HasId => j.id != ""
      case WithinRetention(now, retentionMs) =>
        !j.state.Prunable() || (j.terminalAt.Some? && now - j.terminalAt.value <= retentionMs)
      case IsPrunable => j.state.Prunable()
      case NotDropped(ids) => j.id !in ids
      case InInbox(agent) => j.to == Some(agent) && j.state.Queued?
    }
  }

  function Filter(jobs: seq<Job>, sieve: Sieve): seq<Job> {
    if jobs == [] then []
    else
      var rest := Filter(jobs[..|jobs| - 1], sieve);
      if sieve.Passes(jobs[|jobs| - 1]) then rest + [jobs[|jobs| - 1]] else rest
  }

  ghost predicate UniqueIds(jobs: seq<Job>) {
    forall i, j :: 0 <= i < j < |jobs| ==> jobs[i].id != jobs[j].id
  }

  ghost predicate UniqueRequests(jobs: seq<Job>) {
    forall i, j :: 0 <= i < j < |jobs| ==> jobs[i].requestId != jobs[j].requestId
  }

  /** `part` keeps some of the elements of `whole`, in their order. */
  ghost predicate Subsequence(part: seq<Job>, whole: seq<Job>) {
    if part == [] then true
    else if whole == [] then false
    else
      Subsequence(part, whole[..|whole| - 1])
      || (part[|part| - 1] == whole[|whole| - 1] && Subsequence(part[..|part| - 1], whole[..|whole| - 1]))
  }

  lemma {:induction false} FilterMembers(jobs: seq<Job>, sieve: Sieve)
    ensures forall j :: j in Filter(jobs, sieve) <==> j in jobs && sieve.Passes(j)
    ensures |Filter(jobs, sieve)| <= |jobs|
  {
    if jobs != [] {
      var last := |jobs| - 1;
      FilterMembers(jobs[..last], sieve);
      assert jobs == jobs[..last] + [jobs[last]];
    }
  }

  lemma {:induction false} FilterSubsequence(jobs: seq<Job>, sieve: Sieve)
    ensures Subsequence(Filter(jobs, sieve), jobs)
  {
    if jobs != [] {
      var last := |jobs| - 1;
      var rest := Filter(jobs[..last], sieve);
      FilterSubsequence(jobs[..last], sieve);
      if sieve.Passes(jobs[last]) {
        assert (rest + [jobs[last]])[..|rest|] == rest;
      }
    }
  }

  lemma {:induction false} FilterUnique(jobs: seq<Job>, sieve: Sieve)
    ensures UniqueIds(jobs) ==> UniqueIds(Filter(jobs, sieve))
    ensures UniqueRequests(jobs) ==> UniqueRequests(Filter(jobs, sieve))
  {
    if jobs != [] {
      var last := |jobs| - 1;
      var rest := Filter(jobs[..last], sieve);
      FilterUnique(jobs[..last], sieve);
      forall i | 0 <= i < |rest|
        ensures UniqueIds(jobs) ==> rest[i].id != jobs[last].id
        ensures UniqueRequests(jobs) ==> rest[i].requestId != jobs[last].requestId
      {
        FilterOrigin(jobs[..last], sieve, i);
      }
    }
  }

  lemma FilterOrigin(jobs: seq<Job>, sieve: Sieve, i: nat)
    requires i < |Filter(jobs, sieve)|
    ensures exists k :: 0 <= k < |jobs| && jobs[k] == Filter(jobs, sieve)[i]
  {
    FilterMembers(jobs, sieve);
    assert Filter(jobs, sieve)[i] in Filter(jobs, sieve);
  }

  lemma {:induction false} FilterSameLength(jobs: seq<Job>, sieve: Sieve)
    requires |Filter(jobs, sieve)| == |jobs|
    ensures Filter(jobs, sieve) == jobs
  {
    if jobs != [] {
      var last := |jobs| - 1;
      FilterMembers(jobs[..last], sieve);
      FilterSameLength(jobs[..last], sieve);
      assert jobs == jobs[..last] + [jobs[last]];
    }
  }

  lemma {:induction false} FilterAll(jobs: seq<Job>, sieve: Sieve)
    requires forall j :: j in jobs ==> sieve.Passes(j)
    ensures Filter(jobs, sieve) == jobs
  {
    if jobs != [] {
      var last := |jobs| - 1;
      assert jobs[last] in jobs;
      FilterAll(jobs[..last], sieve);
      assert jobs == jobs[..last] + [jobs[last]];
    }
  }

  lemma {:induction false} FilterNone(jobs: seq<Job>, sieve: Sieve)
    requires forall j :: j in jobs ==> !sieve.Passes(j)
    ensures Filter(jobs, sieve) == []
  {
    if jobs != [] {
      assert jobs[|jobs| - 1] in jobs;
      FilterNone(jobs[..|jobs| - 1], sieve);
    }
  }

  // ---- retention and the hard cap ------------------------------------------

  function SettledAt(j: Job): int {
    if j.terminalAt.Some? then j.terminalAt.value else 0
  }

  function Insert(j: Job, sorted: seq<Job>): seq<Job> {
    if sorted == [] || SettledAt(j) <= SettledAt(sorted[0]) then [j] + sorted
    else [sorted[0]] + Insert(j, sorted[1..])
  }

  /** The stable ascending sort by settlement time. */
  function Oldest(jobs: seq<Job>): seq<Job> {
    if jobs == [] then [] else Insert(jobs[0], Oldest(jobs[1..]))
  }

  ghost predicate Ascending(jobs: seq<Job>) {
    forall i, j :: 0 <= i < j < |jobs| ==> SettledAt(jobs[i]) <= SettledAt(jobs[j])
  }

  lemma {:induction false} InsertKeeps(j: Job, sorted: seq<Job>)
    ensures multiset(Insert(j, sorted)) == multiset(sorted) + multiset{j}
  {
    if sorted != [] {
      assert sorted == [sorted[0]] + sorted[1..];
      if SettledAt(j) > SettledAt(sorted[0]) {
        InsertKeeps(j, sorted[1..]);
      }
    }
  }

  lemma {:induction false} InsertSorts(j: Job, sorted: seq<Job>)
    requires Ascending(sorted)
    ensures Ascending(Insert(j, sorted))
  {
    if sorted != [] && SettledAt(j) > SettledAt(sorted[0]) {
      var tail := Insert(j, sorted[1..]);
      InsertSorts(j, sorted[1..]);
      InsertKeeps(j, sorted[1..]);
      forall k | 0 <= k < |tail|
        ensures SettledAt(sorted[0]) <= SettledAt(tail[k])
      {
        assert tail[k] in multiset(tail);
        assert tail[k] == j || tail[k] in sorted[1..];
      }
    }
  }

  lemma {:induction false} OldestKeeps(jobs: seq<Job>)
    ensures multiset(Oldest(jobs)) == multiset(jobs)
    ensures |Oldest(jobs)| == |jobs|
  {
    if jobs != [] {
      OldestKeeps(jobs[1..]);
      InsertKeeps(jobs[0], Oldest(jobs[1..]));
      assert jobs == [jobs[0]] + jobs[1..];
    }
    assert |Oldest(jobs)| == |multiset(Oldest(jobs))|;
  }

  /** The sort sorts, and only reorders. */
  lemma {:induction false} OldestSorts(jobs: seq<Job>)
    ensures Ascending(Oldest(jobs))
    ensures multiset(Oldest(jobs)) == multiset(jobs) && |Oldest(jobs)| == |jobs|
  {
    if jobs != [] {
      OldestSorts(jobs[1..]);
      InsertSorts(jobs[0], Oldest(jobs[1..]));
    }
    OldestKeeps(jobs);
  }

  function IdSet(jobs: seq<Job>): set<string> {
    set j | j in jobs :: j.id
  }

  /** The ids the hard cap evicts: the oldest prunable jobs, as many as overflow. */
  function Evicted(jobs: seq<Job>, maxJobs: int): set<string>
    requires |jobs| > maxJobs
  {
    var prunable := Oldest(Filter(jobs, IsPrunable));
    var overflow := |jobs| - maxJobs;
    IdSet(prunable[..if overflow < |prunable| then overflow else |prunable|])
  }

  function Cap(jobs: seq<Job>, maxJobs: int): seq<Job> {
    if |jobs| > maxJobs then Filter(jobs, NotDropped(Evicted(jobs, maxJobs))) else jobs
  }

  function Prune(jobs: seq<Job>, now: int, opts: Opts): seq<Job> {
    Cap(Filter(jobs, WithinRetention(now, opts.retentionMs)), opts.maxJobs)
  }

  lemma {:induction false} InsertUnique(j: Job, sorted: seq<Job>)
    requires UniqueIds(sorted) && forall k :: k in sorted ==> k.id != j.id
    ensures UniqueIds(Insert(j, sorted))
  {
    if sorted != [] && SettledAt(j) > SettledAt(sorted[0]) {
      var tail := Insert(j, sorted[1..]);
      InsertUnique(j, sorted[1..]);
      InsertKeeps(j, sorted[1..]);
      forall k | 0 <= k < |tail|
        ensures sorted[0].id != tail[k].id
      {
        assert tail[k] in multiset(tail);
        assert tail[k] == j || tail[k] in sorted[1..];
      }
    }
  }

  lemma {:induction false} OldestUnique(jobs: seq<Job>)
    requires UniqueIds(jobs)
    ensures UniqueIds(Oldest(jobs))
  {
    if jobs != [] {
      OldestUnique(jobs[1..]);
      OldestSorts(jobs[1..]);
      forall k | k in Oldest(jobs[1..])
        ensures k.id != jobs[0].id
      {
        assert k in multiset(jobs[1..]);
      }
      InsertUnique(jobs[0], Oldest(jobs[1..]));
    }
  }

  lemma {:induction false} IdSetSize(jobs: seq<Job>)
    requires UniqueIds(jobs)
    ensures |IdSet(jobs)| == |jobs|
  {
    if jobs != [] {
      var last := |jobs| - 1;
      IdSetSize(jobs[..last]);
      assert jobs == jobs[..last] + [jobs[last]];
      assert IdSet(jobs) == IdSet(jobs[..last]) + {jobs[last].id};
    }
  }

  lemma {:induction false} FilterAgrees(jobs: seq<Job>, a: Sieve, b: Sieve)
    requires forall j :: j in jobs ==> (a.Passes(j) <==> b.Passes(j))
    ensures Filter(jobs, a) == Filter(jobs, b)
  {
    if jobs != [] {
      assert jobs[|jobs| - 1] in jobs;
      FilterAgrees(jobs[..|jobs| - 1], a, b);
    }
  }

  lemma IdSetStep(jobs: seq<Job>)
    requires UniqueIds(jobs) && jobs != []
    ensures var last := |jobs| - 1;
            UniqueIds(jobs[..last]) && jobs[last].id !in IdSet(jobs[..last])
            && IdSet(jobs) == IdSet(jobs[..last]) + {jobs[last].id}
  {
    var last := |jobs| - 1;
    assert jobs == jobs[..last] + [jobs[last]];
  }

  lemma DroppedLast(jobs: seq<Job>, ids: set<string>)
    requires UniqueIds(jobs) && jobs != []
    ensures var last := |jobs| - 1; var x := jobs[last].id;
            |Filter(jobs, NotDropped(ids))| ==
            |Filter(jobs[..last], NotDropped(ids - {x}))| + if x in ids then 0 else 1
  {
    var last := |jobs| - 1;
    IdSetStep(jobs);
    forall j | j in jobs[..last]
      ensures j.id != jobs[last].id
    {
      assert j.id in IdSet(jobs[..last]);
    }
    FilterAgrees(jobs[..last], NotDropped(ids), NotDropped(ids - {jobs[last].id}));
  }

  lemma {:induction false} DroppedCount(jobs: seq<Job>, ids: set<string>)
    requires UniqueIds(jobs) && ids <= IdSet(jobs)
    ensures |Filter(jobs, NotDropped(ids))| == |jobs| - |ids|
  {
    if jobs != [] {
      var last := |jobs| - 1;
      IdSetStep(jobs);
      DroppedCount(jobs[..last], ids - {jobs[last].id});
      DroppedLast(jobs, ids);
    }
  }

  lemma {:induction false} SubsequenceTransitive(a: seq<Job>, b: seq<Job>, c: seq<Job>)
    requires Subsequence(a, b) && Subsequence(b, c)
    ensures Subsequence(a, c)
    decreases |b| + |c|
  {
    if a != [] && b != [] {
      if Subsequence(b, c[..|c| - 1]) {
        SubsequenceTransitive(a, b, c[..|c| - 1]);
      } else if Subsequence(a, b[..|b| - 1]) {
        SubsequenceTransitive(a, b[..|b| - 1], c[..|c| - 1]);
      } else {
        SubsequenceTransitive(a[..|a| - 1], b[..|b| - 1], c[..|c| - 1]);
      }
    }
  }

  /** The evicted ids are those of the first n prunable jobs, oldest first. */
  lemma EvictedPrefix(jobs: seq<Job>, maxJobs: int) returns (sorted: seq<Job>, n: nat)
    requires UniqueIds(jobs) && |jobs| > maxJobs
    ensures Ascending(sorted) && UniqueIds(sorted) && |sorted| == |Filter(jobs, IsPrunable)|
    ensures forall j :: j in sorted <==> j in jobs && j.state.Prunable()
    ensures var overflow := |jobs| - maxJobs; n == if overflow < |sorted| then overflow else |sorted|
    ensures Evicted(jobs, maxJobs) == IdSet(sorted[..n])
  {
    var prunable := Filter(jobs, IsPrunable);
    sorted := Oldest(prunable);
    var overflow := |jobs| - maxJobs;
    OldestSorts(prunable);
    n := if overflow < |sorted| then overflow else |sorted|;
    FilterMembers(jobs, IsPrunable);
    FilterUnique(jobs, IsPrunable);
    OldestUnique(prunable);
    forall j ensures j in sorted <==> j in prunable {
      assert j in multiset(sorted) <==> j in multiset(prunable);
    }
  }

  lemma EvictedCount(jobs: seq<Job>, sorted: seq<Job>, n: nat)
    requires UniqueIds(jobs) && UniqueIds(sorted) && n <= |sorted| && forall j :: j in sorted ==> j in jobs
    ensures |Filter(jobs, NotDropped(IdSet(sorted[..n])))| == |jobs| - n
  {
    assert forall j :: j in sorted[..n] ==> j in sorted;
    IdSetSize(sorted[..n]);
    DroppedCount(jobs, IdSet(sorted[..n]));
  }

  /** The hard cap evicts exactly as many jobs as overflow, or every prunable one
      when there are fewer; it evicts only prunable jobs, and none that settled
      later than a prunable job it keeps. */
  lemma CapEvictsOldest(jobs: seq<Job>, maxJobs: int)
    requires UniqueIds(jobs) && |jobs| > maxJobs
    ensures var prunable := |Filter(jobs, IsPrunable)|; var overflow := |jobs| - maxJobs;
            |jobs| - |Cap(jobs, maxJobs)| == if overflow < prunable then overflow else prunable
    ensures forall d :: d in jobs && d !in Cap(jobs, maxJobs) ==> d.state.Prunable()
    ensures forall d, k :: d in jobs && d !in Cap(jobs, maxJobs) && k in Cap(jobs, maxJobs) && k.state.Prunable()
              ==> SettledAt(d) <= SettledAt(k)
  {
    var sorted, n := EvictedPrefix(jobs, maxJobs);
    EvictedCount(jobs, sorted, n);
    FilterMembers(jobs, NotDropped(Evicted(jobs, maxJobs)));
    forall d | d in jobs && d !in Cap(jobs, maxJobs)
      ensures d.state.Prunable()
    {
      var e :| e in sorted[..n] && e.id == d.id;
      SameIdSameJob(jobs, d, e);
    }
    forall d, k | d in jobs && d !in Cap(jobs, maxJobs) && k in Cap(jobs, maxJobs) && k.state.Prunable()
      ensures SettledAt(d) <= SettledAt(k)
    {
      EvictedBefore(jobs, sorted, n, d, k);
    }
  }

  lemma SameIdSameJob(jobs: seq<Job>, a: Job, b: Job)
    requires UniqueIds(jobs) && a in jobs && b in jobs && a.id == b.id
    ensures a == b
  {
  }

  lemma EvictedBefore(jobs: seq<Job>, sorted: seq<Job>, n: nat, d: Job, k: Job)
    requires UniqueIds(jobs) && n <= |sorted| && Ascending(sorted)
    requires forall j :: j in sorted <==> j in jobs && j.state.Prunable()
    requires d in jobs && d.id in IdSet(sorted[..n])
    requires k in jobs && k.state.Prunable() && k.id !in IdSet(sorted[..n])
    ensures SettledAt(d) <= SettledAt(k)
  {
    var e :| e in sorted[..n] && e.id == d.id;
    assert e in sorted;
    SameIdSameJob(jobs, d, e);
    var p :| 0 <= p < n && sorted[p] == d;
    var q :| 0 <= q < |sorted| && sorted[q] == k;
    if q < n {
      assert k == sorted[..n][q];
    }
  }

  /** Pruning is conservative: the result lists retained jobs in their old order,
      loses no job that is unsettled or waits for an operator, and is no longer
      than the cap unless only such jobs are left. */
  lemma PruneIsConservative(jobs: seq<Job>, now: int, opts: Opts)
    requires UniqueIds(jobs)
    ensures Subsequence(Prune(jobs, now, opts), jobs)
    ensures forall j :: j in Prune(jobs, now, opts) ==> j in jobs && WithinRetention(now, opts.retentionMs).Passes(j)
    ensures forall j :: j in jobs && !j.state.Prunable() ==> j in Prune(jobs, now, opts)
    ensures |Prune(jobs, now, opts)| <= opts.maxJobs
            || forall j :: j in Prune(jobs, now, opts) ==> !j.state.Prunable()
  {
    var kept := Filter(jobs, WithinRetention(now, opts.retentionMs));
    FilterMembers(jobs, WithinRetention(now, opts.retentionMs));
    FilterSubsequence(jobs, WithinRetention(now, opts.retentionMs));
    FilterUnique(jobs, WithinRetention(now, opts.retentionMs));
    if |kept| > opts.maxJobs {
      var dropped := NotDropped(Evicted(kept, opts.maxJobs));
      CapEvictsOldest(kept, opts.maxJobs);
      FilterMembers(kept, dropped);
      FilterSubsequence(kept, dropped);
      SubsequenceTransitive(Prune(jobs, now, opts), kept, jobs);
      if |Prune(jobs, now, opts)| > opts.maxJobs {
        AllPrunableEvicted(kept, opts.maxJobs);
      }
    }
  }

  lemma AllPrunableEvicted(jobs: seq<Job>, maxJobs: int)
    requires UniqueIds(jobs) && |jobs| > maxJobs && |Cap(jobs, maxJobs)| > maxJobs
    ensures forall j :: j in Cap(jobs, maxJobs) ==> !j.state.Prunable()
  {
    var prunable := Filter(jobs, IsPrunable);
    CapEvictsOldest(jobs, maxJobs);
    OldestSorts(prunable);
    FilterMembers(jobs, IsPrunable);
    FilterMembers(jobs, NotDropped(Evicted(jobs, maxJobs)));
    assert Oldest(prunable)[..|prunable|] == Oldest(prunable);
    forall j | j in jobs && j.state.Prunable()
      ensures j.id in Evicted(jobs, maxJobs)
    {
      assert j in multiset(prunable);
      assert j in Oldest(prunable);
    }
  }

  /** Pruning twice with the same settings and clock reading prunes nothing more. */
  lemma PruneIdempotent(jobs: seq<Job>, now: int, opts: Opts)
    requires UniqueIds(jobs)
    ensures var kept := Prune(jobs, now, opts); Prune(kept, now, opts) == kept
  {
    var kept := Prune(jobs, now, opts);
    PruneIsConservative(jobs, now, opts);
    FilterAll(kept, WithinRetention(now, opts.retentionMs));
    if |kept| > opts.maxJobs {
      NothingToEvict(kept, opts.maxJobs);
    }
  }

  lemma NothingToEvict(jobs: seq<Job>, maxJobs: int)
    requires |jobs| > maxJobs && forall j :: j in jobs ==> !j.state.Prunable()
    ensures Cap(jobs, maxJobs) == jobs
  {
    FilterNone(jobs, IsPrunable);
    FilterAll(jobs, NotDropped(Evicted(jobs, maxJobs)));
  }

  /** Pruning that drops no job changes nothing. */
  lemma PruneSameLength(jobs: seq<Job>, now: int, opts: Opts)
    ensures |Prune(jobs, now, opts)| <= |jobs|
    ensures |Prune(jobs, now, opts)| == |jobs| ==> Prune(jobs, now, opts) == jobs
  {
    var retention := WithinRetention(now, opts.retentionMs);
    var kept := Filter(jobs, retention);
    FilterMembers(jobs, retention);
    if |kept| > opts.maxJobs {
      FilterMembers(kept, NotDropped(Evicted(kept, opts.maxJobs)));
      if |Prune(jobs, now, opts)| == |jobs| {
        FilterSameLength(kept, NotDropped(Evicted(kept, opts.maxJobs)));
      }
    }
    if |Prune(jobs, now, opts)| == |jobs| {
      FilterSameLength(jobs, retention);
    }
  }

  // ---- pruning, in numbers and times ---------------------------------------

  /** Settled for good; needs_recovery and needs_review are not. */
  predicate IsOver(j: Job) {
    j.state.Completed? || j.state.Failed? || j.state.Cancelled? || j.state.Expired?
  }

  /** Not over, or over for no longer than the retention window. */
  predicate InWindow(j: Job, now: int, retentionMs: int) {
    IsOver(j) ==> j.terminalAt.Some? && now - j.terminalAt.value <= retentionMs
  }

  ghost predicate Before(jobs: seq<Job>, a: Job, b: Job) {
    exists p, q :: 0 <= p < q < |jobs| && jobs[p] == a && jobs[q] == b
  }

  lemma BeforeAhead(jobs: seq<Job>, last: Job, a: Job, b: Job)
    requires Before(jobs, a, b)
    ensures Before(jobs + [last], a, b)
  {
    var p, q :| 0 <= p < q < |jobs| && jobs[p] == a && jobs[q] == b;
    assert (jobs + [last])[p] == a && (jobs + [last])[q] == b;
  }

  lemma BeforeLast(jobs: seq<Job>, a: Job, last: Job)
    requires a in jobs
    ensures Before(jobs + [last], a, last)
  {
    var p :| 0 <= p < |jobs| && jobs[p] == a;
    assert (jobs + [last])[p] == a && (jobs + [last])[|jobs|] == last;
  }

  lemma {:induction false} FilterKeepsOrder(jobs: seq<Job>, sieve: Sieve, a: Job, b: Job)
    requires Before(jobs, a, b) && sieve.Passes(a) && sieve.Passes(b)
    ensures Before(Filter(jobs, sieve), a, b)
  {
    var p, q :| 0 <= p < q < |jobs| && jobs[p] == a && jobs[q] == b;
    var last := |jobs| - 1;
    var rest := Filter(jobs[..last], sieve);
    assert a == jobs[..last][p];
    if q < last {
      assert b == jobs[..last][q];
      FilterKeepsOrder(jobs[..last], sieve, a, b);
      BeforeAhead(rest, jobs[last], a, b);
    } else {
      FilterMembers(jobs[..last], sieve);
      BeforeLast(rest, a, b);
    }
  }

  lemma BeforeOneWay(jobs: seq<Job>, a: Job, b: Job)
    requires UniqueIds(jobs) && Before(jobs, a, b)
    ensures !Before(jobs, b, a)
  {
  }

  /** A filter that keeps two jobs tells their order. */
  lemma OrderUnfiltered(jobs: seq<Job>, sieve: Sieve, a: Job, b: Job)
    requires UniqueIds(jobs) && Before(Filter(jobs, sieve), a, b)
    ensures Before(jobs, a, b)
  {
    FilterMembers(jobs, sieve);
    FilterUnique(jobs, sieve);
    BeforeOneWay(Filter(jobs, sieve), a, b);
    OneOrTheOther(jobs, a, b);
    if Before(jobs, b, a) {
      FilterKeepsOrder(jobs, sieve, b, a);
    }
  }

  lemma {:induction false} InsertGoesBefore(j: Job, sorted: seq<Job>, k: Job)
    requires k in sorted && Ascending(sorted) && SettledAt(j) <= SettledAt(k)
    ensures Before(Insert(j, sorted), j, k)
  {
    if SettledAt(j) <= SettledAt(sorted[0]) {
      var q :| 0 <= q < |sorted| && sorted[q] == k;
      assert Insert(j, sorted)[0] == j && Insert(j, sorted)[q + 1] == k;
    } else {
      InsertGoesBefore(j, sorted[1..], k);
      BeforeBehind(sorted[0], Insert(j, sorted[1..]), j, k);
    }
  }

  lemma BeforeBehind(first: Job, rest: seq<Job>, a: Job, b: Job)
    requires Before(rest, a, b)
    ensures Before([first] + rest, a, b)
  {
    var p, q :| 0 <= p < q < |rest| && rest[p] == a && rest[q] == b;
    assert ([first] + rest)[p + 1] == a && ([first] + rest)[q + 1] == b;
  }

  lemma {:induction false} InsertKeepsOrder(j: Job, sorted: seq<Job>, a: Job, b: Job)
    requires Before(sorted, a, b)
    ensures Before(Insert(j, sorted), a, b)
  {
    var p, q :| 0 <= p < q < |sorted| && sorted[p] == a && sorted[q] == b;
    if SettledAt(j) <= SettledAt(sorted[0]) {
      BeforeBehind(j, sorted, a, b);
    } else if p == 0 {
      var tail := Insert(j, sorted[1..]);
      InsertKeeps(j, sorted[1..]);
      assert sorted[1..][q - 1] == b;
      assert b in multiset(tail);
      var n :| 0 <= n < |tail| && tail[n] == b;
      assert Insert(j, sorted)[0] == a && Insert(j, sorted)[n + 1] == b;
    } else {
      assert sorted[1..][p - 1] == a && sorted[1..][q - 1] == b;
      InsertKeepsOrder(j, sorted[1..], a, b);
      BeforeBehind(sorted[0], Insert(j, sorted[1..]), a, b);
    }
  }

  /** The sort is stable: jobs settled at the same time keep their order. */
  lemma {:induction false} OldestIsStable(jobs: seq<Job>, a: Job, b: Job)
    requires Before(jobs, a, b) && SettledAt(a) == SettledAt(b)
    ensures Before(Oldest(jobs), a, b)
  {
    var p, q :| 0 <= p < q < |jobs| && jobs[p] == a && jobs[q] == b;
    OldestSorts(jobs[1..]);
    if p == 0 {
      assert jobs[1..][q - 1] == b;
      assert b in multiset(jobs[1..]);
      InsertGoesBefore(jobs[0], Oldest(jobs[1..]), b);
    } else {
      assert jobs[1..][p - 1] == a && jobs[1..][q - 1] == b;
      OldestIsStable(jobs[1..], a, b);
      InsertKeepsOrder(jobs[0], Oldest(jobs[1..]), a, b);
    }
  }

  lemma OneOrTheOther(jobs: seq<Job>, a: Job, b: Job)
    requires a in jobs && b in jobs && a != b
    ensures Before(jobs, a, b) || Before(jobs, b, a)
  {
    var p :| 0 <= p < |jobs| && jobs[p] == a;
    var q :| 0 <= q < |jobs| && jobs[q] == b;
  }

  /** Of two jobs settled at the same time, the one listed first is evicted first. */
  lemma TiesInOrder(jobs: seq<Job>, maxJobs: int, d: Job, k: Job)
    requires UniqueIds(jobs) && |jobs| > maxJobs && d in jobs && k in jobs && IsOver(k)
    requires d !in Cap(jobs, maxJobs) && k in Cap(jobs, maxJobs) && SettledAt(d) == SettledAt(k)
    ensures Before(jobs, d, k)
  {
    CapEvictsOldest(jobs, maxJobs);
    FilterMembers(jobs, NotDropped(Evicted(jobs, maxJobs)));
    OneOrTheOther(jobs, d, k);
    if Before(jobs, k, d) {
      var prunable := Filter(jobs, IsPrunable);
      FilterKeepsOrder(jobs, IsPrunable, k, d);
      OldestIsStable(prunable, k, d);
      FilterUnique(jobs, IsPrunable);
      OldestUnique(prunable);
      NoLaterEvicted(jobs, maxJobs, d, k);
    }
  }

  lemma NoLaterEvicted(jobs: seq<Job>, maxJobs: int, d: Job, k: Job)
    requires UniqueIds(jobs) && |jobs| > maxJobs && d in jobs && k in jobs
    requires d.id in Evicted(jobs, maxJobs) && k.id !in Evicted(jobs, maxJobs)
    requires UniqueIds(Oldest(Filter(jobs, IsPrunable)))
    ensures !Before(Oldest(Filter(jobs, IsPrunable)), k, d)
  {
  }

  ghost function WindowIds(jobs: seq<Job>, now: int, retentionMs: int): set<string> {
    set j | j in jobs && InWindow(j, now, retentionMs) :: j.id
  }

  ghost function LastingIds(jobs: seq<Job>): set<string> {
    set j | j in jobs && !IsOver(j) :: j.id
  }

  lemma PassingCount(jobs: seq<Job>, sieve: Sieve)
    requires UniqueIds(jobs)
    ensures |Filter(jobs, sieve)| == |set j | j in jobs && sieve.Passes(j) :: j.id|
  {
    FilterUnique(jobs, sieve);
    FilterMembers(jobs, sieve);
    IdSetSize(Filter(jobs, sieve));
    assert IdSet(Filter(jobs, sieve)) == set j | j in jobs && sieve.Passes(j) :: j.id;
  }

  lemma WindowCount(jobs: seq<Job>, now: int, retentionMs: int)
    requires UniqueIds(jobs)
    ensures var kept := Filter(jobs, WithinRetention(now, retentionMs));
            |kept| == |WindowIds(jobs, now, retentionMs)| && UniqueIds(kept)
            && (forall j :: j in kept <==> j in jobs && InWindow(j, now, retentionMs))
  {
    var sieve := WithinRetention(now, retentionMs);
    PassingCount(jobs, sieve);
    FilterUnique(jobs, sieve);
    FilterMembers(jobs, sieve);
    assert (set j | j in jobs && sieve.Passes(j) :: j.id) == WindowIds(jobs, now, retentionMs);
  }

  /** The jobs of a list that are not over are those that are not prunable. */
  lemma LastingCount(jobs: seq<Job>)
    requires UniqueIds(jobs)
    ensures |jobs| - |Filter(jobs, IsPrunable)| == |LastingIds(jobs)|
  {
    var over := set j | j in jobs && IsPrunable.Passes(j) :: j.id;
    PassingCount(jobs, IsPrunable);
    IdSetSize(jobs);
    assert IdSet(jobs) == over + LastingIds(jobs);
    forall a, b | a in jobs && b in jobs && a.id == b.id
      ensures a == b
    {
      SameIdSameJob(jobs, a, b);
    }
    assert over !! LastingIds(jobs);
  }

  /** Pruning, exactly: outside the window nothing stays; if those in it are no more
      than the cap they all stay; otherwise as many as the cap stay, or all that are
      not over, and of those that are over the earliest settled go, in the order of
      the list where the times are equal. */
  lemma PruneIsExact(jobs: seq<Job>, now: int, opts: Opts)
    requires UniqueIds(jobs)
    ensures forall j :: j in Prune(jobs, now, opts) ==> j in jobs && InWindow(j, now, opts.retentionMs)
    ensures var window := |WindowIds(jobs, now, opts.retentionMs)|; var lasting := |LastingIds(jobs)|;
            |Prune(jobs, now, opts)| ==
            if window <= opts.maxJobs then window else if lasting < opts.maxJobs then opts.maxJobs else lasting
    ensures |WindowIds(jobs, now, opts.retentionMs)| <= opts.maxJobs ==>
              forall j :: j in jobs && InWindow(j, now, opts.retentionMs) ==> j in Prune(jobs, now, opts)
    ensures forall d, k ::
              d in jobs && InWindow(d, now, opts.retentionMs) && d !in Prune(jobs, now, opts)
              && k in Prune(jobs, now, opts) && IsOver(k)
              ==> EvictedFirst(jobs, d, k)
  {
    var kept := Filter(jobs, WithinRetention(now, opts.retentionMs));
    WindowCount(jobs, now, opts.retentionMs);
    if |kept| > opts.maxJobs {
      CapEvictsOldest(kept, opts.maxJobs);
      FilterMembers(kept, NotDropped(Evicted(kept, opts.maxJobs)));
      LastingCount(kept);
      assert LastingIds(kept) == LastingIds(jobs);
      forall d, k | d in kept && d !in Cap(kept, opts.maxJobs) && k in Cap(kept, opts.maxJobs) && IsOver(k)
        ensures EvictedFirst(jobs, d, k)
      {
        EvictedInOrder(jobs, now, opts, d, k);
      }
    }
  }

  /** Settled earlier, or at the same time and listed earlier. */
  ghost predicate EvictedFirst(jobs: seq<Job>, d: Job, k: Job) {
    && IsOver(d) && d.terminalAt.Some? && k.terminalAt.Some?
    && (d.terminalAt.value < k.terminalAt.value || (d.terminalAt.value == k.terminalAt.value && Before(jobs, d, k)))
  }

  lemma EvictedInOrder(jobs: seq<Job>, now: int, opts: Opts, d: Job, k: Job)
    requires UniqueIds(jobs)
    requires var kept := Filter(jobs, WithinRetention(now, opts.retentionMs));
             |kept| > opts.maxJobs && d in kept && d !in Cap(kept, opts.maxJobs) && k in Cap(kept, opts.maxJobs)
               && IsOver(k)
    ensures EvictedFirst(jobs, d, k)
  {
    var kept := Filter(jobs, WithinRetention(now, opts.retentionMs));
    WindowCount(jobs, now, opts.retentionMs);
    CapEvictsOldest(kept, opts.maxJobs);
    FilterMembers(kept, NotDropped(Evicted(kept, opts.maxJobs)));
    if SettledAt(d) == SettledAt(k) {
      TiesInOrder(kept, opts.maxJobs, d, k);
      OrderUnfiltered(jobs, WithinRetention(now, opts.retentionMs), d, k);
    }
  }

  /** Sweep and prune, job by job: each job kept is what expiry made of one that was
      loaded, and what is not over afterwards is kept. */
  lemma SweepTable(loaded: seq<Job>, now: int, opts: Opts)
    ensures var swept := Prune(SweepJobs(loaded, now), now, opts);
            && (forall k :: k in swept ==> exists j :: j in loaded && ExpiresTo(j, now, k))
            && (UniqueIds(loaded) ==>
                  forall j, k :: j in loaded && ExpiresTo(j, now, k) && !IsOver(k) ==> k in swept)
  {
    var expired := SweepJobs(loaded, now);
    var kept := Filter(expired, WithinRetention(now, opts.retentionMs));
    FilterMembers(expired, WithinRetention(now, opts.retentionMs));
    if |kept| > opts.maxJobs {
      FilterMembers(kept, NotDropped(Evicted(kept, opts.maxJobs)));
    }
    forall k | k in Prune(expired, now, opts)
      ensures exists j :: j in loaded && ExpiresTo(j, now, k)
    {
      var i :| 0 <= i < |expired| && expired[i] == k;
      ExpiryTable(loaded[i], now, k);
      assert loaded[i] in loaded;
    }
    if UniqueIds(loaded) {
      forall j, k | j in loaded && ExpiresTo(j, now, k) && !IsOver(k)
        ensures k in Prune(expired, now, opts)
      {
        SweptStaysUnique(loaded, now);
        PruneIsConservative(expired, now, opts);
        var i :| 0 <= i < |loaded| && loaded[i] == j;
        ExpiryTable(j, now, k);
        assert expired[i] == k;
      }
    }
  }

  lemma SweptStaysUnique(loaded: seq<Job>, now: int)
    requires UniqueIds(loaded)
    ensures UniqueIds(SweepJobs(loaded, now))
  {
    forall i | 0 <= i < |loaded|
      ensures SweepJob(loaded[i], now).id == loaded[i].id
    {
    }
  }
}
