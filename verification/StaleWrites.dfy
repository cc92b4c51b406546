/** What a steal of the lock file does to the store: exactly when a stale store can be
    written back, and a lost update. */
module StaleWrites {
  import opened RelayTypes
  import opened StoreSteps
  import opened StoreRuns
  import opened LockedStore
  import Lock = FileLock

  // ---- after a steal -------------------------------------------------------

  /** Steps one after the other, with the states they lead through. */
  datatype Path = Path(events: seq<Event>, states: seq<Machine>)
  {
    ghost predicate Shaped() {
      |states| == |events| + 1
    }

    function Last(): Machine
      requires |states| > 0
    {
      states[|states| - 1]
    }

    ghost predicate QuietAt(i: nat, calls: seq<Call>)
      requires Shaped() && i < |events|
    {
      && Can(states[i], events[i]) && !Harmful(states[i], events[i])
      && |states[i].work| == |calls| && states[i + 1] == Next(states[i], events[i], calls)
    }

    /** A path from s on, with no harmful steal. */
    ghost predicate QuietFrom(s: Machine, calls: seq<Call>) {
      Shaped() && states[0] == s && forall i :: 0 <= i < |events| ==> QuietAt(i, calls)
    }
  }

  /** The process is about to write back a store that is no longer the one on disk. */
  predicate Stale(s: Machine, p: nat) {
    Can(s, WriteBack(p)) && s.work[p].store != s.disk
  }

  ghost predicate MayOverwrite(s: Machine, calls: seq<Call>)
    requires |calls| == |s.work|
  {
    exists path: Path, p :: path.QuietFrom(s, calls) && Stale(path.Last(), p)
  }

  /** The same calls, but for processes that have not loaded yet. */
  predicate SameBegun(s: Machine, a: seq<Call>, b: seq<Call>) {
    |a| == |b| == |s.work| && forall p :: 0 <= p < |a| && !s.work[p].Idle? ==> a[p] == b[p]
  }

  /** From here on, with no harmful steal, and for some calls of the processes that
      have not begun, a stale store can be written back. */
  ghost predicate Overwritable(s: Machine, calls: seq<Call>) {
    exists other: seq<Call> ::
      SameBegun(s, calls, other) && (FreshCalls(calls) ==> FreshCalls(other)) && MayOverwrite(s, other)
  }

  lemma {:induction false} PathInv(path: Path, i: nat, s: Machine, calls: seq<Call>)
    requires path.QuietFrom(s, calls) && i <= |path.events| && WorkInv(s, |calls|)
    ensures WorkInv(path.states[i], |calls|)
  {
    if i > 0 {
      PathInv(path, i - 1, s, calls);
      assert path.QuietAt(i - 1, calls);
      NextInv(path.states[i - 1], path.events[i - 1], calls);
    }
  }

  lemma HarmlessKeeps(s: Machine, q: nat, calls: seq<Call>, other: seq<Call>)
    requires |calls| == |other| && WorkInv(s, |calls|) && Can(s, LockStep(Lock.Rename(q)))
    requires !Harmful(s, LockStep(Lock.Rename(q)))
    ensures !MayOverwrite(Next(s, LockStep(Lock.Rename(q)), calls), other)
  {
    var stolen := Next(s, LockStep(Lock.Rename(q)), calls);
    NextInv(s, LockStep(Lock.Rename(q)), calls);
    forall path: Path, p | path.QuietFrom(stolen, other)
      ensures !Stale(path.Last(), p)
    {
      PathInv(path, |path.events|, stolen, other);
    }
  }

  lemma StepBack(s: Machine, e: Event, calls: seq<Call>)
    requires |calls| == |s.work| && Can(s, e) && !Harmful(s, e) && MayOverwrite(Next(s, e, calls), calls)
    ensures MayOverwrite(s, calls)
  {
    var rest: Path, p :| rest.QuietFrom(Next(s, e, calls), calls) && Stale(rest.Last(), p);
    var path := Path([e] + rest.events, [s] + rest.states);
    forall i | 0 <= i < |path.events|
      ensures path.QuietAt(i, calls)
    {
      if i > 0 {
        assert rest.QuietAt(i - 1, calls);
      }
    }
    assert path.QuietFrom(s, calls) && path.Last() == rest.Last();
  }

  /** The call changes this store. */
  predicate Changes(s: StoreData, c: Call) {
    Dirty(s, c) && Step(s, c).store != s
  }

  /** Two processes have loaded the store on disk, and one of them writes it back. */
  lemma BothLoadedOverwrite(s: Machine, v: nat, u: nat, calls: seq<Call>)
    requires |calls| == |s.work| == |s.lock.pcs| && v < |calls| && u < |calls| && u != v && Changes(s.disk, calls[u])
    requires s.lock.pcs[v].InSection? && s.work[v] == Loaded(s.disk)
    requires s.lock.pcs[u].InSection? && s.work[u] == Loaded(s.disk)
    ensures MayOverwrite(s, calls)
  {
    var written := Next(s, WriteBack(u), calls);
    var path := Path([], [written]);
    assert path.QuietFrom(written, calls) && Stale(path.Last(), v);
    StepBack(s, WriteBack(u), calls);
  }

  /** One process has loaded the store on disk, there is no file, and another process
      may enter. */
  lemma EntrantOverwrites(s: Machine, v: nat, u: nat, calls: seq<Call>)
    requires |calls| == |s.work| == |s.lock.pcs| && v < |calls| && u < |calls| && u != v && Changes(s.disk, calls[u])
    requires s.lock.pcs[v].InSection? && s.work[v] == Loaded(s.disk) && s.lock.file.Absent?
    requires Lock.MayEnter(s.lock.pcs[u]) && s.work[u].Idle?
    ensures MayOverwrite(s, calls)
    decreases if s.lock.pcs[u].Trying? then 0 else if s.lock.pcs[u].Waiting? then 1 else 2
  {
    match s.lock.pcs[u]
    case Trying =>
      var created := Next(s, LockStep(Lock.Open(u)), calls);
      var entered := Next(created, LockStep(Lock.WriteNonce(u)), calls);
      BothLoadedOverwrite(Next(entered, Load(u), calls), v, u, calls);
      StepBack(entered, Load(u), calls);
      StepBack(created, LockStep(Lock.WriteNonce(u)), calls);
      StepBack(s, LockStep(Lock.Open(u)), calls);
    case Contending =>
      var waiting := Next(s, LockStep(Lock.Stat(u, false)), calls);
      EntrantOverwrites(waiting, v, u, calls);
      StepBack(s, LockStep(Lock.Stat(u, false)), calls);
    case Judged =>
      var waiting := Next(s, LockStep(Lock.Rename(u)), calls);
      EntrantOverwrites(waiting, v, u, calls);
      StepBack(s, LockStep(Lock.Rename(u)), calls);
    case Waiting =>
      EntrantOverwrites(Next(s, LockStep(Lock.Retry(u)), calls), v, u, calls);
      StepBack(s, LockStep(Lock.Retry(u)), calls);
  }

  /** The robbed process c has not written back: it loads, if it has not yet, and the
      stealer changes the store under it. */
  lemma RobbedWriterOverwrites(s: Machine, c: nat, q: nat, calls: seq<Call>)
    requires Current(s, |calls|) && c < |calls| && q < |calls| && c != q && Changes(s.disk, calls[q])
    requires s.lock.file.Absent? && Lock.MayEnter(s.lock.pcs[q])
    requires s.lock.pcs[c].Created? || (s.lock.pcs[c].InSection? && !s.work[c].Done?)
    ensures MayOverwrite(s, calls)
    decreases if s.lock.pcs[c].Created? then 2 else if s.work[c].Idle? then 1 else 0
  {
    if s.lock.pcs[c].Created? {
      RobbedWriterOverwrites(Next(s, LockStep(Lock.WriteNonce(c)), calls), c, q, calls);
      StepBack(s, LockStep(Lock.WriteNonce(c)), calls);
    } else if s.work[c].Idle? {
      RobbedWriterOverwrites(Next(s, Load(c), calls), c, q, calls);
      StepBack(s, Load(c), calls);
    } else {
      EntrantOverwrites(s, c, q, calls);
    }
  }

  /** The robbed process c unlinks the stealer's file, and a third one enters. */
  lemma RobbedReleaseOverwrites(s: Machine, c: nat, q: nat, t: nat, calls: seq<Call>)
    requires Current(s, |calls|) && c < |calls| && q < |calls| && t < |calls| && t != q && Changes(s.disk, calls[t])
    requires s.lock.file.Absent? && s.lock.pcs[q].Trying? && s.lock.pcs[c].Matched? && Lock.MayEnter(s.lock.pcs[t])
    ensures MayOverwrite(s, calls)
  {
    var created := Next(s, LockStep(Lock.Open(q)), calls);
    var entered := Next(created, LockStep(Lock.WriteNonce(q)), calls);
    var loaded := Next(entered, Load(q), calls);
    EntrantOverwrites(Next(loaded, LockStep(Lock.Unlink(c)), calls), q, t, calls);
    StepBack(loaded, LockStep(Lock.Unlink(c)), calls);
    StepBack(entered, Load(q), calls);
    StepBack(created, LockStep(Lock.WriteNonce(q)), calls);
    StepBack(s, LockStep(Lock.Open(q)), calls);
  }

  /** The calls with a registration of a new agent by process u. */
  function WithNewAgent(calls: seq<Call>, u: nat, disk: StoreData): seq<Call>
    requires u < |calls|
  {
    calls[u := Call(0, 0, DEFAULT_OPTS, Register(FreshName(disk.agents.Keys, "agent")))]
  }

  lemma NewAgentChanges(s: Machine, calls: seq<Call>, u: nat)
    requires |calls| == |s.work| && u < |calls| && s.work[u].Idle?
    ensures var other := WithNewAgent(calls, u, s.disk);
            SameBegun(s, calls, other) && (FreshCalls(calls) ==> FreshCalls(other)) && Changes(s.disk, other[u])
  {
    var other := WithNewAgent(calls, u, s.disk);
    var name := FreshName(s.disk.agents.Keys, "agent");
    assert name in Step(s.disk, other[u]).store.agents && name !in s.disk.agents;
  }

  lemma HarmfulOverwrites(s: Machine, q: nat, calls: seq<Call>)
    requires Current(s, |calls|) && Can(s, LockStep(Lock.Rename(q))) && Harmful(s, LockStep(Lock.Rename(q)))
    ensures Overwritable(Next(s, LockStep(Lock.Rename(q)), calls), calls)
  {
    var c := s.lock.file.creator;
    var stolen := Next(s, LockStep(Lock.Rename(q)), calls);
    if s.lock.pcs[c].Matched? {
      var t :| 0 <= t < |s.lock.pcs| && t != q && Lock.MayEnter(s.lock.pcs[t]);
      NewAgentChanges(stolen, calls, t);
      RobbedReleaseOverwrites(stolen, c, q, t, WithNewAgent(calls, t, s.disk));
    } else {
      NewAgentChanges(stolen, calls, q);
      RobbedWriterOverwrites(stolen, c, q, WithNewAgent(calls, q, s.disk));
    }
  }

  /** The condition is exact. Up to step i no steal was harmful; now q renames the file
      away. With no harmful steal after that a stale store can be written back, for
      some calls of the processes that have not begun, if and only if this one is. */
  lemma StealOverwritesExactly(t: Trace, i: nat, q: nat)
    requires t.Valid() && i <= |t.events| && t.NoHarm(i)
    requires q < |t.calls| && q < |t.states[i].lock.pcs| && t.states[i].lock.pcs[q].Judged?
    ensures Can(t.states[i], LockStep(Lock.Rename(q))) && |t.states[i].work| == |t.calls|
    ensures Overwritable(Next(t.states[i], LockStep(Lock.Rename(q)), t.calls), t.calls) <==>
            Harmful(t.states[i], LockStep(Lock.Rename(q)))
  {
    var s := t.states[i];
    var stolen := LockStep(Lock.Rename(q));
    TraceInv(t, i);
    if Harmful(s, stolen) {
      HarmfulOverwrites(s, q, t.calls);
    } else {
      forall other: seq<Call> | |other| == |t.calls|
        ensures !MayOverwrite(Next(s, stolen, t.calls), other)
      {
        HarmlessKeeps(s, q, t.calls, other);
      }
    }
  }

  /** Only steals of live lock files are harmful. */
  lemma HarmIsLive(s: Machine, e: Event)
    requires Harmful(s, e)
    ensures Lock.StealsLive(s.lock, e.e)
  {
  }

  // ---- a lost update -------------------------------------------------------

  lemma Play(t: Trace, e: Event) returns (later: Trace)
    requires t.Valid() && Can(t.states[|t.events|], e) && |t.states[|t.events|].work| == |t.calls|
    ensures later.Valid() && later.calls == t.calls && later.events == t.events + [e]
    ensures later.states == t.states + [Next(t.states[|t.events|], e, t.calls)]
  {
    later := Trace(t.calls, t.events + [e], t.states + [Next(t.states[|t.events|], e, t.calls)]);
    forall i | 0 <= i < |later.events|
      ensures later.StepAt(i)
    {
      if i < |t.events| {
        assert t.StepAt(i);
      }
    }
  }

  function Request(requestId: string, freshId: string, caller: nat): Call {
    Call(caller, 0, DEFAULT_OPTS, Enqueue(requestId, None, None, Malformed, None, None, Requeue, freshId))
  }

  const TWO_REQUESTS := [Request("r0", "a", 0), Request("r1", "b", 1)]

  lemma OneLoaded() returns (t: Trace)
    ensures t.Valid() && |t.events| == 3 && t.calls == TWO_REQUESTS
    ensures t.states[3] ==
            Machine(Lock.State(Lock.Present(0, true), [Lock.InSection, Lock.Trying]), EMPTY, [Loaded(EMPTY), Idle])
  {
    var start := Machine(Lock.State(Lock.Absent, [Lock.Trying, Lock.Trying]), EMPTY, [Idle, Idle]);
    t := Trace(TWO_REQUESTS, [], [start]);
    t := Play(t, LockStep(Lock.Open(0)));
    t := Play(t, LockStep(Lock.WriteNonce(0)));
    t := Play(t, Load(0));
  }

  /** The stealer renames the file of a process that has loaded, and loads as well. */
  lemma BothLoaded() returns (t: Trace)
    ensures t.Valid() && |t.events| == 9 && t.calls == TWO_REQUESTS
    ensures t.states[9] ==
            Machine(Lock.State(Lock.Present(1, true), [Lock.InSection, Lock.InSection]), EMPTY,
                  [Loaded(EMPTY), Loaded(EMPTY)])
  {
    t := OneLoaded();
    t := Play(t, LockStep(Lock.Open(1)));
    t := Play(t, LockStep(Lock.Stat(1, true)));
    t := Play(t, LockStep(Lock.Rename(1)));
    t := Play(t, LockStep(Lock.Open(1)));
    t := Play(t, LockStep(Lock.WriteNonce(1)));
    t := Play(t, Load(1));
  }

  /** One live steal can lose an update: the second enqueue is answered with its new
      job, and then the first one writes back a store without it. */
  lemma LiveStealLosesAnUpdate() returns (t: Trace)
    ensures t.Valid() && FreshCalls(t.calls) && t.calls == TWO_REQUESTS
    ensures var s := t.states[|t.events|]; var lost := NewJob(t.calls[1].op, 0);
            |s.work| == 2 && s.work[1] == Done(Enqueued("b", false, lost)) && lost !in s.disk.jobs && s.work[0].Done?
  {
    t := BothLoaded();
    FirstEnqueue(t.calls[0]);
    FirstEnqueue(t.calls[1]);
    t := Play(t, WriteBack(1));
    t := Play(t, WriteBack(0));
  }
}
