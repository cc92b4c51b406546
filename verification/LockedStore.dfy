/** Store calls under the lock file, step by step: each process loads the store file
    inside its critical section, and writes it back there if its call changed
    anything. As long as no steal robs a process that may still work, this is a run. */
module LockedStore {
  import opened RelayTypes
  import opened StoreSteps
  import opened StoreRuns
  import Lock = FileLock

  /** How far a process is with its call. */
  datatype Work = Idle | Loaded(store: StoreData) | Done(reply: Reply)

  datatype Machine = Machine(lock: Lock.State, disk: StoreData, work: seq<Work>)

  datatype Event = LockStep(e: Lock.Event) | Load(p: nat) | WriteBack(p: nat)

  predicate Can(s: Machine, e: Event) {
    |s.work| == |s.lock.pcs| &&
    match e
    case LockStep(e) => Lock.Can(s.lock, e) && (e.Leave? ==> s.work[e.p].Done?)
    case Load(p) => p < |s.work| && s.lock.pcs[p].InSection? && s.work[p].Idle?
    case WriteBack(p) => p < |s.work| && s.lock.pcs[p].InSection? && s.work[p].Loaded?
  }

  /** The sweep or the operation changed something. */
  predicate Dirty(s: StoreData, c: Call) {
    Opened(s, c.now, c.opts).jobs != s.jobs || Step(s, c).changed
  }

  function Next(s: Machine, e: Event, calls: seq<Call>): Machine
    requires Can(s, e) && |calls| == |s.work|
  {
    match e
    case LockStep(e) => s.(lock := Lock.Next(s.lock, e))
    case Load(p) => s.(work := s.work[p := Loaded(s.disk)])
    case WriteBack(p) =>
      var result := Step(s.work[p].store, calls[p]);
      s.(disk := if Dirty(s.work[p].store, calls[p]) then result.store else s.disk,
         work := s.work[p := Done(result.reply)])
  }

  /** Any interleaving of any number of processes, each with one call. */
  datatype Trace = Trace(calls: seq<Call>, events: seq<Event>, states: seq<Machine>)
  {
    ghost predicate StepAt(i: nat)
      requires |states| == |events| + 1 && i < |events|
    {
      Can(states[i], events[i]) && |states[i].work| == |calls| && states[i + 1] == Next(states[i], events[i], calls)
    }

    ghost predicate Valid() {
      && |states| == |events| + 1
      && Lock.Initial(states[0].lock)
      && states[0].disk == EMPTY
      && |states[0].work| == |states[0].lock.pcs| == |calls|
      && (forall p :: 0 <= p < |calls| ==> states[0].work[p].Idle?)
      && (forall i :: 0 <= i < |events| ==> StepAt(i))
    }

    /** None of the first i steps is a harmful steal. */
    ghost predicate NoHarm(i: nat)
      requires |states| == |events| + 1 && i <= |events|
    {
      forall k :: 0 <= k < i ==> !Harmful(states[k], events[k])
    }
  }

  /** Names are drawn fresh, and required arguments are there. */
  ghost predicate FreshCalls(calls: seq<Call>) {
    && (forall p :: 0 <= p < |calls| ==> Possible(calls[p].op, {}))
    && (forall p, q :: 0 <= p < q < |calls| ==> Mints(calls[p].op) * Mints(calls[q].op) == {})
  }

  /** The step renames away the file of a process that has not written back yet, or
      of one about to unlink while, besides the stealer, a third process may enter. */
  predicate Harmful(s: Machine, e: Event) {
    && e.LockStep? && e.e.Rename? && s.lock.file.Present?
    && s.lock.file.creator < |s.lock.pcs| == |s.work|
    && var c := s.lock.file.creator; var pc := s.lock.pcs[c];
       || pc.Created?
       || (pc.InSection? && !s.work[c].Done?)
       || (pc.Matched? && exists t :: 0 <= t < |s.lock.pcs| && t != e.e.p && Lock.MayEnter(s.lock.pcs[t]))
  }

  /** The processes in the order in which they wrote back. */
  function Commits(events: seq<Event>): seq<nat> {
    if events == [] then []
    else
      var last := events[|events| - 1];
      Commits(events[..|events| - 1]) + if last.WriteBack? then [last.p] else []
  }

  // ---- the invariant -------------------------------------------------------

  /** A process works only from its critical section on, and what it has loaded is
      what is on disk. */
  ghost predicate Current(s: Machine, n: nat) {
    && |s.work| == |s.lock.pcs| == n
    && (s.lock.file.Present? ==> s.lock.file.creator < n)
    && (forall p :: 0 <= p < n && !s.work[p].Idle? ==> PastEntry(s.lock.pcs[p]))
    && (forall p :: 0 <= p < n && s.work[p].Loaded? && s.lock.pcs[p].InSection? ==> s.work[p].store == s.disk)
  }

  predicate PastEntry(pc: Lock.Pc) {
    pc.InSection? || pc.Leaving? || pc.Matched? || pc.Finished? || pc.Crashed?
  }

  /** Has written back, and has not yet read its nonce back. */
  predicate Through(s: Machine, p: nat)
    requires p < |s.work| == |s.lock.pcs|
  {
    s.lock.pcs[p].Leaving? || (s.lock.pcs[p].InSection? && s.work[p].Done?)
  }

  /** Whoever holds the lock owns the file, unless it is through with its work. */
  ghost predicate Owned(s: Machine)
    requires |s.work| == |s.lock.pcs|
  {
    && (forall p :: 0 <= p < |s.work| && s.lock.pcs[p].Holds() && !Through(s, p) ==>
          s.lock.file == Lock.Present(p, !s.lock.pcs[p].Created?))
    && (s.lock.file.Present? && s.lock.file.creator < |s.work| ==>
          var pc := s.lock.pcs[s.lock.file.creator];
          pc.Crashed? || (pc.Holds() && (s.lock.file.written <==> !pc.Created?)))
  }

  /** Nobody but q will ever load or write back again. */
  ghost predicate OnlyWorker(s: Machine, q: nat)
    requires |s.work| == |s.lock.pcs|
  {
    forall p :: 0 <= p < |s.work| && p != q ==>
      var pc := s.lock.pcs[p]; !Lock.MayEnter(pc) && !pc.Created? && (pc.InSection? ==> s.work[p].Done?)
  }

  ghost predicate WorkInv(s: Machine, n: nat) {
    Current(s, n) && (Owned(s) || exists q :: OnlyWorker(s, q))
  }

  lemma LockStepOwned(s: Machine, e: Lock.Event, calls: seq<Call>)
    requires Current(s, |calls|) && Owned(s) && Can(s, LockStep(e)) && !Harmful(s, LockStep(e))
    ensures Owned(Next(s, LockStep(e), calls)) || (e.Rename? && OnlyWorker(Next(s, LockStep(e), calls), e.p))
  {
  }

  lemma WorkStepOwned(s: Machine, e: Event, calls: seq<Call>)
    requires Current(s, |calls|) && Owned(s) && Can(s, e) && !e.LockStep?
    ensures Owned(Next(s, e, calls))
  {
  }

  lemma LockStepCurrent(s: Machine, e: Lock.Event, calls: seq<Call>)
    requires Current(s, |calls|) && Can(s, LockStep(e))
    ensures Current(Next(s, LockStep(e), calls), |calls|)
  {
  }

  /** Only one process at a time is between its load and its write-back. */
  lemma OneLoadedInside(s: Machine, p: nat, q: nat)
    requires |s.work| == |s.lock.pcs| && (Owned(s) || exists w :: OnlyWorker(s, w))
    requires p < |s.work| && s.lock.pcs[p].InSection? && s.work[p].Loaded?
    requires q < |s.work| && s.lock.pcs[q].InSection? && s.work[q].Loaded?
    ensures p == q
  {
  }

  lemma WorkStepCurrent(s: Machine, e: Event, calls: seq<Call>)
    requires WorkInv(s, |calls|) && Can(s, e) && !e.LockStep?
    ensures Current(Next(s, e, calls), |calls|)
  {
    forall p | e.WriteBack? && 0 <= p < |calls| && s.lock.pcs[p].InSection? && s.work[p].Loaded?
      ensures p == e.p
    {
      OneLoadedInside(s, p, e.p);
    }
  }

  lemma NextOnlyWorker(s: Machine, q: nat, e: Event, calls: seq<Call>)
    requires |s.work| == |s.lock.pcs| == |calls| && OnlyWorker(s, q) && Can(s, e)
    ensures OnlyWorker(Next(s, e, calls), q)
  {
  }

  lemma NextInv(s: Machine, e: Event, calls: seq<Call>)
    requires WorkInv(s, |calls|) && Can(s, e) && !Harmful(s, e)
    ensures WorkInv(Next(s, e, calls), |calls|)
  {
    if e.LockStep? {
      LockStepCurrent(s, e.e, calls);
    } else {
      WorkStepCurrent(s, e, calls);
    }
    if exists q :: OnlyWorker(s, q) {
      var q :| OnlyWorker(s, q);
      NextOnlyWorker(s, q, e, calls);
    } else if e.LockStep? {
      LockStepOwned(s, e.e, calls);
    } else {
      WorkStepOwned(s, e, calls);
    }
  }

  lemma {:induction false} TraceInv(t: Trace, i: nat)
    requires t.Valid() && i <= |t.events| && t.NoHarm(i)
    ensures WorkInv(t.states[i], |t.calls|)
  {
    if i > 0 {
      TraceInv(t, i - 1);
      assert t.StepAt(i - 1);
      NextInv(t.states[i - 1], t.events[i - 1], t.calls);
    }
  }

  // ---- the trace is a run --------------------------------------------------

  /** The run is made of the calls of these processes, each at most once, and the
      others' names are still fresh. */
  ghost predicate Replays(r: Run, calls: seq<Call>, commits: seq<nat>) {
    && r.Valid() && |r.calls| == |commits|
    && (forall k :: 0 <= k < |commits| ==> commits[k] < |calls| && r.calls[k] == calls[commits[k]])
    && (forall j, k :: 0 <= j < k < |commits| ==> commits[j] != commits[k])
    && (forall p :: 0 <= p < |calls| && p !in commits ==> Mints(calls[p].op) * r.names[|r.calls|] == {})
  }

  /** The run made of the calls that were written back, in that order: it ends in the
      file on disk, and every process that is done has the reply its call got there. */
  ghost predicate Matches(r: Run, calls: seq<Call>, commits: seq<nat>, s: Machine) {
    && Replays(r, calls, commits) && |s.work| == |calls|
    && r.stores[|r.calls|] == s.disk
    && (forall p :: 0 <= p < |calls| ==> (s.work[p].Done? <==> p in commits))
    && (forall k :: 0 <= k < |commits| ==> s.work[commits[k]] == Done(r.results[k].reply))
  }

  lemma CommitReplays(r: Run, calls: seq<Call>, commits: seq<nat>, p: nat)
    requires FreshCalls(calls) && Replays(r, calls, commits) && p < |calls| && p !in commits
    ensures Replays(r.Extend(calls[p]), calls, commits + [p])
  {
    PossibleNow(r, calls, p);
    ExtendValid(r, calls[p]);
    NamesStayFresh(r, calls, commits, p);
  }

  lemma CommitMatches(r: Run, t: Trace, commits: seq<nat>, s: Machine, p: nat) returns (later: Run)
    requires FreshCalls(t.calls) && Matches(r, t.calls, commits, s) && Can(s, WriteBack(p)) && s.work[p].store == s.disk
    ensures Matches(later, t.calls, commits + [p], Next(s, WriteBack(p), t.calls))
  {
    var c := t.calls[p];
    later := r.Extend(c);
    CommitReplays(r, t.calls, commits, p);
    PossibleNow(r, t.calls, p);
    WriteBackIsStep(r, c);
  }

  /** Writing back only after a change leaves the same file as the whole step. */
  lemma WriteBackIsStep(r: Run, c: Call)
    requires r.Valid() && Possible(c.op, r.names[|r.calls|])
    ensures var disk := r.stores[|r.calls|]; !Dirty(disk, c) ==> Step(disk, c).store == disk
  {
    RunInv(r, |r.calls|);
    var disk := r.stores[|r.calls|];
    if !Dirty(disk, c) {
      UnchangedStepKeeps(disk, c, r.names[|r.calls|]);
    }
  }

  lemma NamesStayFresh(r: Run, calls: seq<Call>, commits: seq<nat>, p: nat)
    requires r.Shaped() && FreshCalls(calls) && p < |calls|
    requires forall q :: 0 <= q < |calls| && q !in commits ==> Mints(calls[q].op) * r.names[|r.calls|] == {}
    ensures forall q :: 0 <= q < |calls| && q !in commits + [p] ==>
              Mints(calls[q].op) * (r.names[|r.calls|] + Mints(calls[p].op)) == {}
  {
    forall q | 0 <= q < |calls| && q !in commits + [p]
      ensures Mints(calls[q].op) * (r.names[|r.calls|] + Mints(calls[p].op)) == {}
    {
      assert p in commits + [p] && q !in commits;
      assert if p < q then Mints(calls[p].op) * Mints(calls[q].op) == {}
             else Mints(calls[q].op) * Mints(calls[p].op) == {};
    }
  }

  lemma PossibleNow(r: Run, calls: seq<Call>, p: nat)
    requires r.Shaped() && FreshCalls(calls) && p < |calls| && Mints(calls[p].op) * r.names[|r.calls|] == {}
    ensures Possible(calls[p].op, r.names[|r.calls|])
  {
    forall n | n in Mints(calls[p].op)
      ensures n != "" && n !in r.names[|r.calls|]
    {
      assert Possible(calls[p].op, {});
      assert n in Mints(calls[p].op) * r.names[|r.calls|] <==> n in r.names[|r.calls|];
    }
  }

  lemma OtherStepMatches(r: Run, calls: seq<Call>, commits: seq<nat>, s: Machine, e: Event)
    requires Matches(r, calls, commits, s) && Can(s, e) && !e.WriteBack?
    ensures Matches(r, calls, commits, Next(s, e, calls))
  {
  }

  lemma NextMatches(r: Run, t: Trace, commits: seq<nat>, s: Machine, e: Event) returns (later: Run)
    requires FreshCalls(t.calls) && Matches(r, t.calls, commits, s) && Can(s, e) && WorkInv(s, |t.calls|)
    ensures Matches(later, t.calls, commits + if e.WriteBack? then [e.p] else [], Next(s, e, t.calls))
  {
    if e.WriteBack? {
      later := CommitMatches(r, t, commits, s, e.p);
    } else {
      later := r;
      OtherStepMatches(r, t.calls, commits, s, e);
      assert commits + [] == commits;
    }
  }

  lemma CommitsNext(events: seq<Event>, i: nat)
    requires 0 < i <= |events|
    ensures Commits(events[..i]) ==
            Commits(events[..i - 1]) + if events[i - 1].WriteBack? then [events[i - 1].p] else []
  {
    assert events[..i][..i - 1] == events[..i - 1];
  }

  /** The store's calls are atomic: as long as no harmful steal came in between, the
      store file and all replies are those of a run of whole calls, in the order of
      the write-backs. Nothing is lost, and every theorem about runs applies. */
  lemma {:induction false} LockedCallsAreARun(t: Trace, i: nat) returns (r: Run)
    requires t.Valid() && FreshCalls(t.calls) && i <= |t.events| && t.NoHarm(i)
    ensures Matches(r, t.calls, Commits(t.events[..i]), t.states[i])
  {
    if i == 0 {
      return START;
    }
    var before := LockedCallsAreARun(t, i - 1);
    TraceInv(t, i - 1);
    CommitsNext(t.events, i);
    assert t.StepAt(i - 1);
    r := NextMatches(before, t, Commits(t.events[..i - 1]), t.states[i - 1], t.events[i - 1]);
  }
}
