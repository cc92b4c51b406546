/** Wake-ups from the store: which job transitions concern an agent, and how the stop
    hook shows each of them once. */
module RelayHook {
  import opened RelayTypes

  /** A wake-worthy transition; the source writes it as "id:state:time". */
  datatype Key = TerminalKey(id: string, state: State, at: Option<int>) | InboxKey(id: string, enqueuedAt: int)

  /** An entry of the owned record: a job this session dispatched, or a transition it
      has already been told about. */
  datatype Mark = Dispatched(id: string) | Told(key: Key)

  datatype Entry = Entry(key: Key, job: Job)

  /** What one poll reads: the job list and the session's owned set, None when there
      is no session data. */
  datatype Snapshot = Snapshot(jobs: seq<Job>, owned: Option<set<Mark>>)

  // ---- keys ----------------------------------------------------------------

  /** The session may be told that this settled job of the agent's changed. */
  predicate Tellable(j: Job, agent: string, owned: Option<set<Mark>>) {
    && j.state.Terminal()
    && j.from == Some(agent)
    && (owned.None? || (Dispatched(j.id) in owned.value
                        && Told(TerminalKey(j.id, j.state, j.terminalAt)) !in owned.value))
  }

  method ChannelKeys(j: Job, agent: string, owned: Option<set<Mark>>) returns (keys: seq<Entry>)
    ensures forall e :: e in keys <==> e.job == j && Concerns(e.key, j, agent, owned)
    ensures forall e :: e in keys && e.key.TerminalKey? ==> e.key == TerminalKey(j.id, j.state, j.terminalAt)
    ensures forall e :: e in keys && e.key.InboxKey? ==> e.key == InboxKey(j.id, j.enqueuedAt)
    ensures Entry(TerminalKey(j.id, j.state, j.terminalAt), j) in keys <==>
            agent != "" && j.from == Some(agent) && !j.state.Queued? && !j.state.Claimed? && !j.state.Running?
            && (owned.Some? ==>
                  Dispatched(j.id) in owned.value && Told(TerminalKey(j.id, j.state, j.terminalAt)) !in owned.value)
    ensures Entry(InboxKey(j.id, j.enqueuedAt), j) in keys <==> agent != "" && j.to == Some(agent) && j.state.Queued?
  {
    keys := [];
    if agent == "" {
      return;
    }
    if j.state.Terminal() && j.from == Some(agent) {
      if owned.None? || Dispatched(j.id) in owned.value {
        var key := TerminalKey(j.id, j.state, j.terminalAt);
        if owned.None? || Told(key) !in owned.value {
          keys := keys + [Entry(key, j)];
        }
      }
    }
    if j.state.Queued? && j.to == Some(agent) {
      keys := keys + [Entry(InboxKey(j.id, j.enqueuedAt), j)];
    }
  }

  /** The key is a transition of this job that concerns the agent: a settled job it
      dispatched, or a queued one in its inbox. */
  predicate Concerns(key: Key, j: Job, agent: string, owned: Option<set<Mark>>) {
    agent != "" &&
    match key
    case TerminalKey(id, state, at) => id == j.id && state == j.state && at == j.terminalAt && Tellable(j, agent, owned)
    case InboxKey(id, at) => id == j.id && at == j.enqueuedAt && j.state.Queued? && j.to == Some(agent)
  }

  ghost predicate InSnapshot(key: Key, jobs: seq<Job>, agent: string, owned: Option<set<Mark>>) {
    exists j :: j in jobs && Concerns(key, j, agent, owned)
  }

  ghost predicate Lists(entries: seq<Entry>, key: Key) {
    exists e :: e in entries && e.key == key
  }

  method CollectKeys(jobs: seq<Job>, agent: string, owned: Option<set<Mark>>) returns (out: seq<Entry>)
    ensures forall e :: e in out <==> e.job in jobs && Concerns(e.key, e.job, agent, owned)
  {
    out := [];
    for i := 0 to |jobs|
      invariant forall e :: e in out <==> e.job in jobs[..i] && Concerns(e.key, e.job, agent, owned)
    {
      var keys := ChannelKeys(jobs[i], agent, owned);
      assert jobs[..i + 1] == jobs[..i] + [jobs[i]];
      out := out + keys;
    }
    assert jobs[..|jobs|] == jobs;
  }

  method SeedKeys(jobs: seq<Job>, agent: string, owned: Option<set<Mark>>) returns (keys: set<Key>)
    ensures forall k :: k in keys <==> InSnapshot(k, jobs, agent, owned)
  {
    var out := CollectKeys(jobs, agent, owned);
    keys := set e | e in out :: e.key;
    forall k
      ensures k in keys <==> InSnapshot(k, jobs, agent, owned)
    {
      if j :| j in jobs && Concerns(k, j, agent, owned) {
        assert Entry(k, j) in out;
      }
    }
  }

  /** The new keys are exactly those of the snapshot not seen before, each once, and
      the advanced seen-set is the old one with all keys of the snapshot. */
  method Surface(jobs: seq<Job>, agent: string, seen: set<Key>, owned: Option<set<Mark>>)
    returns (news: seq<Entry>, nextSeen: set<Key>)
    ensures forall k :: k in nextSeen <==> k in seen || InSnapshot(k, jobs, agent, owned)
    ensures forall k :: Lists(news, k) <==> k !in seen && InSnapshot(k, jobs, agent, owned)
    ensures forall a, b :: 0 <= a < b < |news| ==> news[a].key != news[b].key
    ensures forall e :: e in news ==> e.job in jobs && Concerns(e.key, e.job, agent, owned)
  {
    nextSeen := seen;
    var all := CollectKeys(jobs, agent, owned);
    news := [];
    for i := 0 to |all|
      invariant forall k :: k in nextSeen <==> k in seen || Lists(all[..i], k)
      invariant forall k :: Lists(news, k) <==> k !in seen && k in nextSeen
      invariant forall a, b :: 0 <= a < b < |news| ==> news[a].key != news[b].key
      invariant forall e :: e in news ==> e in all
    {
      assert all[..i + 1] == all[..i] + [all[i]];
      if all[i].key !in nextSeen {
        news := news + [all[i]];
        nextSeen := nextSeen + {all[i].key};
      }
    }
    assert all[..|all|] == all;
    forall k
      ensures Lists(all, k) <==> InSnapshot(k, jobs, agent, owned)
    {
      if j :| j in jobs && Concerns(k, j, agent, owned) {
        assert Entry(k, j) in all;
      }
    }
  }

  /** A job this session dispatched is still on its way. */
  ghost predicate InFlight(jobs: seq<Job>, agent: string, owned: Option<set<Mark>>) {
    agent != ""
    && exists j :: j in jobs && j.from == Some(agent) && !j.state.Terminal()
                    && (owned.None? || Dispatched(j.id) in owned.value)
  }

  method HasInFlightFromAgent(jobs: seq<Job>, agent: string, owned: Option<set<Mark>>) returns (b: bool)
    ensures b <==> InFlight(jobs, agent, owned)
    ensures b <==> agent != "" && exists j :: j in jobs && j.from == Some(agent)
                                              && (j.state.Queued? || j.state.Claimed? || j.state.Running?)
                                              && (owned.Some? ==> Dispatched(j.id) in owned.value)
  {
    if agent == "" {
      return false;
    }
    for i := 0 to |jobs|
      invariant forall j :: j in jobs[..i] ==>
                  !(j.from == Some(agent) && !j.state.Terminal() && (owned.None? || Dispatched(j.id) in owned.value))
    {
      assert jobs[..i + 1] == jobs[..i] + [jobs[i]];
      if jobs[i].from == Some(agent) && !jobs[i].state.Terminal() {
        if owned.None? || Dispatched(jobs[i].id) in owned.value {
          return true;
        }
      }
    }
    assert jobs[..|jobs|] == jobs;
    b := false;
  }

  // ---- surfacing over many polls -------------------------------------------

  ghost predicate Shows(snap: Snapshot, agent: string, key: Key) {
    InSnapshot(key, snap.jobs, agent, snap.owned)
  }

  /** The key was in the seed, or in one of the polls. */
  ghost predicate Seen(seed: Snapshot, polls: seq<Snapshot>, agent: string, key: Key) {
    Shows(seed, agent, key) || exists p :: 0 <= p < |polls| && Shows(polls[p], agent, key)
  }

  lemma SeenNext(seed: Snapshot, polls: seq<Snapshot>, snap: Snapshot, agent: string, key: Key)
    ensures Seen(seed, polls + [snap], agent, key) <==> Seen(seed, polls, agent, key) || Shows(snap, agent, key)
  {
    if Shows(snap, agent, key) {
      assert Shows((polls + [snap])[|polls|], agent, key);
    }
    if p :| 0 <= p < |polls| && Shows(polls[p], agent, key) {
      assert Shows((polls + [snap])[p], agent, key);
    }
  }

  datatype Decision = Allow | Block(news: seq<Entry>)

  /** The snapshot shows work of this session still on its way. */
  ghost predicate Pending(snap: Snapshot, agent: string) {
    InFlight(snap.jobs, agent, snap.owned)
  }

  /** The seen file: absent (or not JSON), JSON but no array, or the keys shown. */
  datatype SeenFile = Absent | NoArray | Keys(keys: set<Key>)
  {
    /** What loadSeen makes of it; None means that there is no baseline. */
    function Loaded(): Option<set<Key>> {
      match this
      case Absent => None
      case NoArray => Some({})
      case Keys(keys) => Some(keys)
    }
  }

  const NOTHING := Snapshot([], None)

  /** The hook of one session. The file holds the keys already shown; `seed` and
      `polls` are all the snapshots read since it was seeded and remembered in it. */
  class StopHook {
    const agent: string
    var seenFile: SeenFile
    ghost var seed: Snapshot
    ghost var polls: seq<Snapshot>

    /** The file is exact, although it is not written when nothing is new. */
    ghost predicate Valid()
      reads this
    {
      seenFile.Loaded().Some? ==> forall k :: k in seenFile.Loaded().value <==> Seen(seed, polls, agent, k)
    }

    constructor (agent: string)
      ensures Valid() && seenFile.Absent? && this.agent == agent
    {
      this.agent := agent;
      seenFile, seed, polls := Absent, NOTHING, [];
    }

    /** Someone else damages the file: what was shown is forgotten. */
    method Damaged(json: bool)
      modifies this
      ensures Valid() && seenFile == (if json then NoArray else Absent) && seed == NOTHING && polls == []
    {
      seenFile, seed, polls := if json then NoArray else Absent, NOTHING, [];
    }

    /** A session start, or a stop without a baseline: everything there is old, unless
        the write fails, which leaves the file as it was. */
    method SessionStart(snap: Snapshot, writeOk: bool)
      requires Valid()
      modifies this
      ensures Valid() && (writeOk ==> seenFile.Keys? && seed == snap && polls == [])
      ensures !writeOk ==> unchanged(this)
    {
      var keys := SeedKeys(snap.jobs, agent, snap.owned);
      if writeOk {
        seenFile, seed, polls := Keys(keys), snap, [];
      }
    }

    /** A stop. `snaps` are what it would read, poll after poll, until its waiting
        budget is spent; it looks at the first n of them, waiting on only while nothing
        is new and work of the session is on its way. It blocks exactly with the keys
        of the last one that no earlier poll of the session and no seed had. When the
        write fails these polls are not remembered, and the keys stay new. */
    method Stop(snaps: seq<Snapshot>, mayWait: bool, writeOk: bool) returns (decision: Decision, ghost n: nat)
      requires Valid() && snaps != []
      modifies this
      ensures Valid()
      ensures old(seenFile).Absent? ==>
                decision.Allow?
                && (if writeOk then seenFile.Keys? && seed == snaps[0] && polls == [] else unchanged(this))
      ensures !old(seenFile).Absent? ==>
                1 <= n <= |snaps| && seed == old(seed)
                && polls == if decision.Block? && !writeOk then old(polls) else old(polls) + snaps[..n]
      ensures !old(seenFile).Absent? && decision.Block? ==>
                decision.news != [] && (seenFile.Keys? || !writeOk)
                && forall k :: Lists(decision.news, k) <==>
                               Shows(snaps[n - 1], agent, k) && !Seen(seed, old(polls) + snaps[..n - 1], agent, k)
      ensures !old(seenFile).Absent? && decision.Allow? ==>
                seenFile == old(seenFile)
                && forall k :: Seen(seed, polls, agent, k) ==> Seen(seed, old(polls), agent, k)
      ensures !old(seenFile).Absent? ==>
                (n > 1 ==> mayWait && forall q :: 0 <= q < n - 1 ==> Pending(snaps[q], agent))
                && (decision.Allow? && mayWait ==> n == |snaps| || !Pending(snaps[n - 1], agent))
    {
      n := 0;
      if seenFile.Loaded().None? {
        SessionStart(snaps[0], writeOk);
        return Allow, 0;
      }
      var news, nextSeen;
      news, nextSeen, n := Poll(snaps, mayWait, seenFile.Loaded().value);
      if news == [] {
        NothingNew(news);
        polls := polls + snaps[..n];
        return Allow, n;
      }
      if writeOk {
        seenFile, polls := Keys(nextSeen), polls + snaps[..n];
      }
      decision := Block(news);
    }

    /** One look, and further ones while nothing is new and there is work to wait for. */
    method Poll(snaps: seq<Snapshot>, mayWait: bool, seen: set<Key>)
      returns (news: seq<Entry>, nextSeen: set<Key>, ghost n: nat)
      requires snaps != [] && forall k :: k in seen <==> Seen(seed, polls, agent, k)
      ensures 1 <= n <= |snaps|
      ensures forall k :: k in seen <==> Seen(seed, polls + snaps[..n - 1], agent, k)
      ensures forall k :: k in nextSeen <==> Seen(seed, polls + snaps[..n], agent, k)
      ensures forall k :: k in nextSeen <==> k in seen || Shows(snaps[n - 1], agent, k)
      ensures forall k :: Lists(news, k) <==> k !in seen && Shows(snaps[n - 1], agent, k)
      ensures n > 1 ==> mayWait && forall q :: 0 <= q < n - 1 ==> Pending(snaps[q], agent)
      ensures news == [] && mayWait ==> n == |snaps| || !Pending(snaps[n - 1], agent)
    {
      news, nextSeen := Surface(snaps[0].jobs, agent, seen, snaps[0].owned);
      var p := 0;
      PollSeen(polls, snaps, 0);
      if news == [] && mayWait {
        var waiting := HasInFlightFromAgent(snaps[0].jobs, agent, snaps[0].owned);
        while p + 1 < |snaps| && waiting && news == []
          invariant p < |snaps|
          invariant (waiting <==> Pending(snaps[p], agent)) && forall q :: 0 <= q < p ==> Pending(snaps[q], agent)
          invariant forall k :: Seen(seed, polls + snaps[..p], agent, k) <==> k in seen
          invariant forall k :: k in nextSeen <==> k in seen || Shows(snaps[p], agent, k)
          invariant forall k :: Lists(news, k) <==> k !in seen && Shows(snaps[p], agent, k)
        {
          PollSeen(polls, snaps, p);
          NothingNew(news);
          p := p + 1;
          news, nextSeen := Surface(snaps[p].jobs, agent, seen, snaps[p].owned);
          waiting := HasInFlightFromAgent(snaps[p].jobs, agent, snaps[p].owned);
        }
      }
      PollSeen(polls, snaps, p);
      n := p + 1;
    }

    lemma PollSeen(before: seq<Snapshot>, snaps: seq<Snapshot>, p: nat)
      requires p < |snaps|
      ensures before + snaps[..0] == before
      ensures forall k :: Seen(seed, before + snaps[..p + 1], agent, k) <==>
              Seen(seed, before + snaps[..p], agent, k) || Shows(snaps[p], agent, k)
    {
      assert before + snaps[..p + 1] == before + snaps[..p] + [snaps[p]];
      forall k
        ensures Seen(seed, before + snaps[..p + 1], agent, k) <==>
                Seen(seed, before + snaps[..p], agent, k) || Shows(snaps[p], agent, k)
      {
        SeenNext(seed, before + snaps[..p], snaps[p], agent, k);
      }
    }
  }

  lemma NothingNew(news: seq<Entry>)
    requires news == []
    ensures forall k :: !Lists(news, k)
  {
  }

  // ---- the fold, by itself -------------------------------------------------

  /** The seen-set after n polls with these keys, written only when something is new. */
  function SeenAfter(seed: set<Key>, polls: seq<set<Key>>, n: nat): set<Key>
    requires n <= |polls|
  {
    if n == 0 then seed
    else
      var seen := SeenAfter(seed, polls, n - 1);
      if polls[n - 1] <= seen then seen else seen + polls[n - 1]
  }

  /** A key is new at poll i exactly when it is among that poll's keys and in neither
      the seed nor any earlier poll. */
  lemma {:induction false} NewExactlyOnce(seed: set<Key>, polls: seq<set<Key>>, i: nat, key: Key)
    requires i < |polls|
    ensures key in polls[i] - SeenAfter(seed, polls, i) <==>
            key in polls[i] && key !in seed && forall j :: 0 <= j < i ==> key !in polls[j]
  {
    SeenAfterSpec(seed, polls, i, key);
  }

  lemma {:induction false} SeenAfterSpec(seed: set<Key>, polls: seq<set<Key>>, n: nat, key: Key)
    requires n <= |polls|
    ensures key in SeenAfter(seed, polls, n) <==> key in seed || exists j :: 0 <= j < n && key in polls[j]
  {
    if n > 0 {
      SeenAfterSpec(seed, polls, n - 1, key);
    }
  }
}
