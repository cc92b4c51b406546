/** The daemon life cycle of one agent: a state file that starters, adopters, timeouts
    and stops change in short locked sections, with arbitrary waits in between.
    Liveness reads, clock readings and failing writes are the world's choice. */
module WorkerLifecycle {
  import opened RelayTypes

  datatype Status = Starting | Running

  /** The state file. The token names the child process. */
  datatype Record = Record(token: string, status: Status, startedAt: int, allowWrites: bool)

  const KILL_GRACE_MS := 2000
  const STALE_SLACK_MS := 5000

  // ---- the locked sections -------------------------------------------------

  /** One locked section, with what it reads from the world: the clock, one liveness
      read, whether its write or unlink of the state file succeeds (a failed unlink
      goes unnoticed), the token it would give a new child. */
  datatype Section =
    | Enter(allowWrites: bool, timeoutMs: int, now: int, alive: bool, writeOk: bool, freshToken: string)
    | Promote(token: string, writeOk: bool)
    | Expire(token: string, unlinkOk: bool)
    | Clear(token: string, unlinkOk: bool)

  datatype Decision = Reuse | Refuse | BackOff | Adopt | Spawn

  predicate FreshStart(r: Record, s: Section)
    requires s.Enter?
  {
    r.status.Starting? && s.now - r.startedAt < s.timeoutMs + KILL_GRACE_MS + STALE_SLACK_MS
  }

  /** What phase 1 of an ensure decides on the state file it finds. */
  function Decide(state: Option<Record>, s: Section): Decision
    requires s.Enter?
  {
    if state.None? then Spawn
    else if state.value.status.Running? && s.alive then
      if state.value.allowWrites == s.allowWrites then Reuse else Refuse
    else if FreshStart(state.value, s) then BackOff
    else if state.value.status.Starting? && s.alive then Adopt
    else Spawn
  }

  /** A record of a start that its starter may still be waiting for: younger than the
      start timeout, the kill grace and the slack together. */
  predicate Young(state: Option<Record>, now: int, timeoutMs: int) {
    state.Some? && state.value.status.Starting? && now - state.value.startedAt < timeoutMs + 2000 + 5000
  }

  /** Nobody is recorded, or the recorded worker is dead and is not just starting. */
  predicate Vacant(state: Option<Record>, now: int, timeoutMs: int, alive: bool) {
    state.None? || (!alive && !Young(state, now, timeoutMs))
  }

  /** A live start that its starter has abandoned. */
  predicate Abandoned(state: Option<Record>, now: int, timeoutMs: int, alive: bool) {
    state.Some? && state.value.status.Starting? && alive && !Young(state, now, timeoutMs)
  }

  predicate Lives(state: Option<Record>, alive: bool) {
    state.Some? && state.value.status.Running? && alive
  }

  /** The section finds the child it names still starting: the compare of each
      compare-and-swap. */
  predicate Owns(state: Option<Record>, token: string) {
    state.Some? && state.value.token == token && state.value.status.Starting?
  }

  function After(state: Option<Record>, s: Section): Option<Record> {
    match s
    case Enter(allowWrites, _, now, _, writeOk, freshToken) =>
      if !writeOk then state
      else (match Decide(state, s)
            case Adopt => Some(state.value.(status := Status.Running))
            case Spawn => Some(Record(freshToken, Starting, now, allowWrites))
            case _ => state)
    case Promote(token, writeOk) =>
      if writeOk && Owns(state, token) then Some(state.value.(status := Status.Running)) else state
    case Expire(token, unlinkOk) => if unlinkOk && Owns(state, token) then None else state
    case Clear(token, unlinkOk) => if unlinkOk && state.Some? && state.value.token == token then None else state
  }

  /** The token a section gives to a child it spawns. */
  function Gives(state: Option<Record>, s: Section): set<string> {
    if s.Enter? && Decide(state, s).Spawn? then {s.freshToken} else {}
  }

  // ---- histories -----------------------------------------------------------

  /** Any interleaving of the sections of any number of calls. */
  datatype History = History(sections: seq<Section>, files: seq<Option<Record>>, given: seq<set<string>>)
  {
    ghost predicate Shaped() {
      |files| == |given| == |sections| + 1
    }

    ghost predicate StepAt(i: nat)
      requires Shaped() && i < |sections|
    {
      && files[i + 1] == After(files[i], sections[i])
      && given[i + 1] == given[i] + Gives(files[i], sections[i])
      && Gives(files[i], sections[i]) * given[i] == {}
    }

    ghost predicate Valid() {
      && Shaped()
      && files[0] == None
      && given[0] == {}
      && forall i :: 0 <= i < |sections| ==> StepAt(i)
    }

    ghost function Extend(s: Section): History
      requires Shaped()
    {
      History(sections + [s], files + [After(files[|sections|], s)],
              given + [given[|sections|] + Gives(files[|sections|], s)])
    }
  }

  ghost predicate Grows(h: History, later: History) {
    h.sections <= later.sections && h.files <= later.files && h.given <= later.given
  }

  lemma ExtendValid(h: History, s: Section)
    requires h.Valid() && Gives(h.files[|h.sections|], s) * h.given[|h.sections|] == {}
    ensures h.Extend(s).Valid()
  {
    var e := h.Extend(s);
    forall i | 0 <= i < |e.sections|
      ensures e.StepAt(i)
    {
      if i < |h.sections| {
        assert h.StepAt(i);
      }
    }
  }

  lemma {:induction false} RecordedWasGiven(h: History, i: nat)
    requires h.Valid() && i <= |h.sections|
    ensures h.files[i].Some? ==> h.files[i].value.token in h.given[i]
  {
    if i > 0 {
      assert h.StepAt(i - 1);
      RecordedWasGiven(h, i - 1);
    }
  }

  lemma {:induction false} GivenGrows(h: History, i: nat, k: nat)
    requires h.Valid() && i <= k <= |h.sections|
    ensures h.given[i] <= h.given[k]
  {
    if i < k {
      GivenGrows(h, i, k - 1);
      assert h.StepAt(k - 1);
    }
  }

  // ---- the life of one child -----------------------------------------------

  datatype Phase = Unborn | Waiting | Up | Gone

  /** What the state file says of this child before section i. */
  ghost function PhaseAt(h: History, i: nat, token: string): Phase
    requires h.Shaped() && i <= |h.sections|
  {
    if token !in h.given[i] then Unborn
    else if h.files[i].Some? && h.files[i].value.token == token then
      if h.files[i].value.status.Starting? then Waiting else Up
    else Gone
  }

  function Rank(p: Phase): nat {
    match p case Unborn => 0 case Waiting => 1 case Up => 2 case Gone => 3
  }

  /** A child's record only moves forward: none, starting, running, gone; and it is
      running only after starting. */
  lemma PhaseNext(h: History, i: nat, token: string)
    requires h.Valid() && i < |h.sections|
    ensures Rank(PhaseAt(h, i, token)) <= Rank(PhaseAt(h, i + 1, token))
    ensures PhaseAt(h, i + 1, token).Up? ==> PhaseAt(h, i, token).Waiting? || PhaseAt(h, i, token).Up?
  {
    assert h.StepAt(i);
    RecordedWasGiven(h, i);
    var s := h.sections[i];
    if token in Gives(h.files[i], s) {
      assert token in Gives(h.files[i], s) * h.given[i] <==> token in h.given[i];
    }
  }

  lemma {:induction false} PhasesAscend(h: History, i: nat, k: nat, token: string)
    requires h.Valid() && i <= k <= |h.sections|
    ensures Rank(PhaseAt(h, i, token)) <= Rank(PhaseAt(h, k, token))
  {
    if i < k {
      PhasesAscend(h, i, k - 1, token);
      PhaseNext(h, k - 1, token);
    }
  }

  /** A child that is no longer starting never is again. */
  lemma NotStartingAgain(h: History, i: nat, k: nat, token: string)
    requires h.Valid() && i <= k <= |h.sections| && token in h.given[i] && !Owns(h.files[i], token)
    ensures !Owns(h.files[k], token)
  {
    PhasesAscend(h, i, k, token);
    RecordedWasGiven(h, k);
  }

  /** Section i makes the starter kill the child it spawned: its timeout found the
      record still starting, or its spawn could not be recorded. */
  ghost predicate KillsAt(h: History, i: nat, token: string)
    requires h.Shaped() && i < |h.sections|
  {
    var s := h.sections[i];
    || (s.Expire? && s.token == token && Owns(h.files[i], token))
    || (s.Enter? && Decide(h.files[i], s).Spawn? && s.freshToken == token && !s.writeOk)
  }

  /** The kill has removed the record, or there was none. */
  predicate Unlinks(s: Section) {
    s.Expire? ==> s.unlinkOk
  }

  /** Before its starter kills it, a child was never recorded as running. */
  lemma NotYetRunning(h: History, i: nat, k: nat, token: string)
    requires h.Valid() && k <= i < |h.sections| && KillsAt(h, i, token)
    ensures !PhaseAt(h, k, token).Up?
  {
    RecordedWasGiven(h, i);
    if h.sections[i].Enter? {
      NotGivenTwice(h, i, token);
    }
    PhasesAscend(h, k, i, token);
  }

  lemma NotGivenTwice(h: History, i: nat, token: string)
    requires h.Valid() && i < |h.sections| && token in Gives(h.files[i], h.sections[i])
    ensures token !in h.given[i] && token in h.given[i + 1]
  {
    assert h.StepAt(i);
    var gives, given := Gives(h.files[i], h.sections[i]), h.given[i];
    assert token in gives * given <==> token in given;
  }

  lemma KilledIsGone(h: History, i: nat, token: string)
    requires h.Valid() && i < |h.sections| && KillsAt(h, i, token) && Unlinks(h.sections[i])
    ensures PhaseAt(h, i + 1, token).Gone?
  {
    assert h.StepAt(i);
    RecordedWasGiven(h, i);
    if h.sections[i].Enter? {
      NotGivenTwice(h, i, token);
    }
  }

  /** No child is killed by its own starter and recorded as running, at any two
      points of any history, in whatever order, if the kill's unlink worked. */
  lemma KilledNeverRuns(h: History, i: nat, k: nat, token: string)
    requires h.Valid() && i < |h.sections| && k <= |h.sections| && KillsAt(h, i, token) && Unlinks(h.sections[i])
    ensures !PhaseAt(h, k, token).Up?
  {
    if k <= i {
      NotYetRunning(h, i, k, token);
    } else {
      KilledIsGone(h, i, token);
      PhasesAscend(h, i + 1, k, token);
    }
  }

  /** Some history goes on from here to this child recorded as running. */
  ghost predicate MayRunYet(h: History, token: string) {
    exists later: History :: later.Valid() && Grows(h, later) && PhaseAt(later, |later.sections|, token).Up?
  }

  /** The record that a failed unlink left behind is adopted as an abandoned start. */
  lemma LeftRecordIsAdopted(h: History, token: string)
    requires h.Valid() && Owns(h.files[|h.sections|], token)
    ensures MayRunYet(h, token)
  {
    var r := h.files[|h.sections|].value;
    var adopt := Enter(r.allowWrites, 0, r.startedAt + KILL_GRACE_MS + STALE_SLACK_MS, true, true, "");
    ExtendValid(h, adopt);
    RecordedWasGiven(h, |h.sections|);
    assert PhaseAt(h.Extend(adopt), |h.sections| + 1, token).Up?;
  }

  /** The condition is exact: after a kill, the child can still come to be recorded as
      running if and only if the unlink of its record failed. */
  lemma KillIsFinalExactly(h: History, token: string)
    requires h.Valid() && |h.sections| > 0 && KillsAt(h, |h.sections| - 1, token)
    ensures MayRunYet(h, token) <==> !Unlinks(h.sections[|h.sections| - 1])
  {
    var i := |h.sections| - 1;
    if Unlinks(h.sections[i]) && MayRunYet(h, token) {
      var later: History :| later.Valid() && Grows(h, later) && PhaseAt(later, |later.sections|, token).Up?;
      assert later.files[i] == h.files[i];
      KilledNeverRuns(later, i, |later.sections|, token);
    } else if !Unlinks(h.sections[i]) {
      assert h.StepAt(i);
      LeftRecordIsAdopted(h, token);
    }
  }

  // ---- single spawn --------------------------------------------------------

  /** Section i spawned a child and recorded it. */
  ghost predicate SpawnsAt(h: History, i: nat)
    requires h.Shaped() && i < |h.sections|
  {
    h.sections[i].Enter? && h.sections[i].writeOk && Decide(h.files[i], h.sections[i]).Spawn?
  }

  /** Section i removed the state file. */
  ghost predicate RemovesAt(h: History, i: nat)
    requires h.Shaped() && i < |h.sections|
  {
    h.files[i].Some? && h.files[i + 1].None?
  }

  /** Section i read the liveness of the recorded worker under the lock, and it
      failed. (A fresh start is not probed.) */
  ghost predicate FindsDeadAt(h: History, i: nat)
    requires h.Shaped() && i < |h.sections|
  {
    h.sections[i].Enter? && h.files[i].Some? && !FreshStart(h.files[i].value, h.sections[i]) && !h.sections[i].alive
  }

  lemma {:induction false} RemovedBetween(h: History, i: nat, k: nat)
    requires h.Valid() && i <= k <= |h.sections| && h.files[i].Some? && h.files[k].None?
    ensures exists m :: i <= m < k && RemovesAt(h, m)
  {
    if h.files[k - 1].Some? {
      assert RemovesAt(h, k - 1);
    } else {
      RemovedBetween(h, i, k - 1);
    }
  }

  /** Between two recorded spawns the state was removed, or the second one found the
      recorded worker dead under the lock. */
  lemma SpawnsNeedCause(h: History, i: nat, k: nat)
    requires h.Valid() && i < k < |h.sections| && SpawnsAt(h, i) && SpawnsAt(h, k)
    ensures FindsDeadAt(h, k) || exists m :: i < m < k && RemovesAt(h, m)
  {
    assert h.StepAt(i);
    if h.files[k].None? {
      RemovedBetween(h, i + 1, k);
    }
  }

  // ---- the calls -----------------------------------------------------------

  /** The state file of one agent, with the tokens given out so far. */
  class StateFile {
    var state: Option<Record>
    var tokens: set<string>
    ghost var history: History

    ghost predicate Valid()
      reads this
    {
      history.Valid() && state == history.files[|history.sections|] && tokens == history.given[|history.sections|]
    }

    constructor ()
      ensures Valid() && history == History([], [None], [{}])
    {
      state, tokens, history := None, {}, History([], [None], [{}]);
    }

    /** This section was the next one. */
    ghost predicate Did(before: History, s: Section)
      reads this
    {
      && history.Shaped() && Grows(before, history)
      && |history.sections| == |before.sections| + 1 && history.sections[|before.sections|] == s
    }

    method Commit(s: Section, next: Option<Record>)
      requires Valid() && next == After(state, s) && Gives(state, s) * tokens == {}
      modifies this
      ensures Valid() && Did(old(history), s) && state == next && tokens == old(tokens) + Gives(old(state), s)
    {
      ExtendValid(history, s);
      tokens := tokens + Gives(state, s);
      state := next;
      history := history.Extend(s);
    }

    /** Phase 1 of an ensure. None: the write failed and the source throws, after
        killing the child if it had spawned one. */
    method EnterLocked(allowWrites: bool, timeoutMs: int, now: int, alive: bool, writeOk: bool, freshToken: string)
      returns (decision: Option<Decision>, found: Option<Record>, killed: bool)
      requires Valid() && freshToken !in tokens
      modifies this
      ensures Valid() && Did(old(history), Enter(allowWrites, timeoutMs, now, alive, writeOk, freshToken))
      ensures decision == Some(Spawn) <==> writeOk && Vacant(old(state), now, timeoutMs, alive)
      ensures decision == Some(Adopt) <==> writeOk && Abandoned(old(state), now, timeoutMs, alive)
      ensures decision == Some(BackOff) <==> Young(old(state), now, timeoutMs)
      ensures decision == Some(Reuse) <==> Lives(old(state), alive) && old(state).value.allowWrites == allowWrites
      ensures decision == Some(Refuse) <==> Lives(old(state), alive) && old(state).value.allowWrites != allowWrites
      ensures decision.None? <==>
                !writeOk && (Vacant(old(state), now, timeoutMs, alive) || Abandoned(old(state), now, timeoutMs, alive))
      ensures killed <==> !writeOk && Vacant(old(state), now, timeoutMs, alive)
      ensures decision == Some(Spawn) ==> state == Some(Record(freshToken, Starting, now, allowWrites))
      ensures decision == Some(Adopt) ==> state == Some(old(state).value.(status := Status.Running))
      ensures decision != Some(Spawn) && decision != Some(Adopt) ==> state == old(state)
      ensures decision.Some? ==> found == state
      ensures tokens == old(tokens) + if Vacant(old(state), now, timeoutMs, alive) then {freshToken} else {}
      ensures killed ==> KillsAt(history, |old(history).sections|, freshToken)
    {
      var s := Enter(allowWrites, timeoutMs, now, alive, writeOk, freshToken);
      if state.Some? && state.value.status == Status.Running && alive {
        decision := Some(if state.value.allowWrites == allowWrites then Reuse else Refuse);
        Commit(s, state);
        return decision, state, false;
      }
      if state.Some? && state.value.status == Starting
        && now - state.value.startedAt < timeoutMs + KILL_GRACE_MS + STALE_SLACK_MS {
        Commit(s, state);
        return Some(BackOff), state, false;
      }
      if state.Some? && state.value.status == Starting && alive {
        var adopted := state.value.(status := Status.Running);
        Commit(s, if writeOk then Some(adopted) else state);
        return if writeOk then Some(Adopt) else None, state, false;
      }
      var spawned := Record(freshToken, Starting, now, allowWrites);
      assert freshToken in Gives(state, s);
      Commit(s, if writeOk then Some(spawned) else state);
      return if writeOk then Some(Spawn) else None, state, !writeOk;
    }

    /** The child is ready: flip starting to running if it is still ours to flip. None
        when that write fails and the source throws, or there is no state. */
    method PromoteLocked(token: string, writeOk: bool) returns (found: Option<Record>)
      requires Valid()
      modifies this
      ensures Valid() && Did(old(history), Promote(token, writeOk))
      ensures state == if writeOk && Owns(old(state), token) then Some(old(state).value.(status := Status.Running))
                       else old(state)
      ensures found == if !writeOk && Owns(old(state), token) then None else state
    {
      if state.Some? && state.value.token == token && state.value.status == Starting {
        if !writeOk {
          Commit(Promote(token, writeOk), state);
          return None;
        }
        Commit(Promote(token, writeOk), Some(state.value.(status := Status.Running)));
        return state;
      }
      Commit(Promote(token, writeOk), state);
      found := state;
    }

    /** The child was not ready in time: true means that the record was still ours and
        starting, so the child is ours to kill; the record is then unlinked, if that
        works. */
    method ExpireLocked(token: string, unlinkOk: bool) returns (kill: bool)
      requires Valid()
      modifies this
      ensures Valid() && Did(old(history), Expire(token, unlinkOk))
      ensures kill <==> Owns(old(state), token)
      ensures state == if kill && unlinkOk then None else old(state)
    {
      kill := state.Some? && state.value.token == token && state.value.status == Starting;
      Commit(Expire(token, unlinkOk), if kill && unlinkOk then None else state);
    }

    method ClearLocked(token: string, unlinkOk: bool)
      requires Valid()
      modifies this
      ensures Valid() && Did(old(history), Clear(token, unlinkOk))
      ensures state == if unlinkOk && old(state).Some? && old(state).value.token == token then None else old(state)
    {
      Commit(Clear(token, unlinkOk), if unlinkOk && state.Some? && state.value.token == token then None else state);
    }

    /** Sections of other calls, in any number and order. */
    method Interfere(env: seq<Section>)
      requires Valid()
      modifies this
      ensures Valid() && Grows(old(history), history)
    {
      for i := 0 to |env|
        invariant Valid() && Grows(old(history), history)
      {
        if Gives(state, env[i]) * tokens == {} {
          Commit(env[i], After(state, env[i]));
        }
      }
    }

    /** After a spawn: wait, outside the lock, and then either promote the child or,
        when it was not ready in time, kill it if its record was still ours. None
        with killed false means the source throws, or found no state to return. */
    method AwaitChild(token: string, ready: bool, promoteOk: bool, unlinkOk: bool, env: seq<seq<Section>>)
      returns (result: Option<Record>, killed: bool)
      requires Valid() && token in tokens && |env| == 2
      modifies this
      ensures Valid() && Grows(old(history), history)
      ensures killed ==>
                exists i :: |old(history).sections| <= i < |history.sections| && KillsAt(history, i, token)
                            && (unlinkOk ==> Unlinks(history.sections[i]))
      ensures killed ==> result.None? && !ready
      ensures result.Some? ==> result == state
      ensures result.Some? && result.value.token == token ==> result.value.status.Running?
      ensures exists i :: |old(history).sections| <= i < |history.sections|
                          && if ready then history.sections[i] == Promote(token, promoteOk)
                             else history.sections[i] == Expire(token, unlinkOk)
                                  && (killed <==> Owns(history.files[i], token))
    {
      ghost var n := |history.sections|;
      killed := false;
      Interfere(env[0]);
      if ready {
        ghost var p := |history.sections|;
        result := PromoteLocked(token, promoteOk);
        assert history.sections[p] == Promote(token, promoteOk);
        return;
      }
      ghost var m := |history.sections|;
      killed := ExpireLocked(token, unlinkOk);
      if killed {
        assert KillsAt(history, m, token);
        return None, true;
      }
      ghost var gaveUp := history;
      GivenGrows(history, n, m);
      Interfere(env[1]);
      assert history.files[m] == gaveUp.files[m] && history.given[m] == gaveUp.given[m];
      assert history.sections[m] == gaveUp.sections[m] == Expire(token, unlinkOk);
      NotStartingAgain(history, m, |history.sections|, token);
      result := state;
    }

    /** Ensure a worker: reuse, back off, adopt, or spawn one and wait for it. `killed`
        says that the call killed the child it spawned, whose token is freshToken; if
        its unlink worked, no point of the history, before or after, has that child
        running. */
    method Ensure(allowWrites: bool, timeoutMs: int, now: int, alive: bool, writeOk: bool, freshToken: string,
                  ready: bool, promoteOk: bool, unlinkOk: bool, env: seq<seq<Section>>)
      returns (result: Option<Record>, killed: bool)
      requires Valid() && freshToken !in tokens && |env| == 2
      modifies this
      ensures Valid() && Grows(old(history), history)
      ensures killed ==>
                exists i :: |old(history).sections| <= i < |history.sections| && KillsAt(history, i, freshToken)
      ensures killed && unlinkOk ==> forall k :: 0 <= k <= |history.sections| ==> !PhaseAt(history, k, freshToken).Up?
      ensures killed ==> result.None?
      ensures result.Some? && result.value.token == freshToken ==> result.value.status.Running?
      ensures Lives(old(state), alive) || Young(old(state), now, timeoutMs) ==> result == old(state) && state == result
      ensures Abandoned(old(state), now, timeoutMs, alive) ==>
                result == if writeOk then Some(old(state).value.(status := Status.Running)) else None
      ensures Vacant(old(state), now, timeoutMs, alive) ==>
                freshToken in tokens && (!writeOk ==> killed)
                && (result.Some? ==> result.value.token !in old(tokens))
    {
      ghost var n := |history.sections|;
      ghost var given := tokens;
      RecordedWasGiven(history, n);
      var decision, found;
      decision, found, killed := EnterLocked(allowWrites, timeoutMs, now, alive, writeOk, freshToken);
      if decision == Some(Spawn) {
        ghost var spawned := history;
        result, killed := AwaitChild(freshToken, ready, promoteOk, unlinkOk, env);
        GivenGrows(history, n + 1, |history.sections|);
        assert history.files[n + 1] == spawned.files[n + 1] && history.given[n + 1] == spawned.given[n + 1];
        if result.Some? && result.value.token in given {
          ReplacedStaysGone(history, n + 1, result.value.token);
        }
      } else {
        assert killed ==> KillsAt(history, n, freshToken);
        result := if decision.None? then None else found;
      }
      if killed && unlinkOk {
        ghost var i :| n <= i < |history.sections| && KillsAt(history, i, freshToken) && Unlinks(history.sections[i]);
        KilledEverywhere(history, i, freshToken);
      }
    }

    /** Stop: a worker proven alive is signalled by its recorded pid, outside the lock;
        then the state is unlinked if it is still the one that was read. */
    method Stop(proven: bool, unlinkOk: bool, env: seq<Section>) returns (stopped: bool)
      requires Valid()
      modifies this
      ensures Valid() && Grows(old(history), history)
      ensures stopped <==> proven && old(state).Some?
      ensures old(state).Some? && unlinkOk ==> state.None? || state.value.token != old(state).value.token
    {
      var read := state;
      if read.None? {
        return false;
      }
      Interfere(env);
      ClearLocked(read.value.token, unlinkOk);
      stopped := proven;
    }
  }

  lemma KilledEverywhere(h: History, i: nat, token: string)
    requires h.Valid() && i < |h.sections| && KillsAt(h, i, token) && Unlinks(h.sections[i])
    ensures forall k :: 0 <= k <= |h.sections| ==> !PhaseAt(h, k, token).Up?
  {
    forall k | 0 <= k <= |h.sections|
      ensures !PhaseAt(h, k, token).Up?
    {
      KilledNeverRuns(h, i, k, token);
    }
  }

  /** A recorded child that was replaced is never recorded again. */
  lemma ReplacedStaysGone(h: History, i: nat, token: string)
    requires h.Valid() && i <= |h.sections| && PhaseAt(h, i, token).Gone?
    ensures var last := h.files[|h.sections|]; last.Some? ==> last.value.token != token
  {
    PhasesAscend(h, i, |h.sections|, token);
    RecordedWasGiven(h, |h.sections|);
  }
}
