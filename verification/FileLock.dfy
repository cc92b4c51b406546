/** The interprocess lock as interleaved file-system steps. Each process is one
    invocation of withFileLock, so its nonce is its number, and a lock-file
    generation is known by the process that created it. */
module FileLock {

  datatype Pc =
    | Trying      // about to open the lock file exclusively
    | Contending  // the file existed; about to stat it
    | Judged      // the stat said stale; about to rename the file away
    | Waiting     // about to sleep and retry, or time out
    | Created     // the file was created; about to write the nonce
    | InSection   // running the critical section
    | Leaving     // about to read the file back
    | Matched     // read its own nonce; about to unlink
    | Finished
    | TimedOut
    | Crashed
  {
    /** Between creating the file and giving it up. */
    predicate Holds() {
      Created? || InSection? || Leaving? || Matched?
    }
  }

  /** The file at the lock path: who created it, and whether its nonce is in it. */
  datatype LockFile = Absent | Present(creator: nat, written: bool)

  datatype State = State(file: LockFile, pcs: seq<Pc>)

  datatype Event =
    | Open(p: nat)
    | WriteNonce(p: nat)
    | Stat(p: nat, stale: bool)
    | Rename(p: nat)
    | Retry(p: nat)
    | GiveUp(p: nat)
    | Leave(p: nat)
    | ReadBack(p: nat)
    | Unlink(p: nat)
    | Crash(p: nat)

  predicate Can(s: State, e: Event) {
    e.p < |s.pcs| &&
    match e
    case Open(p) => s.pcs[p].Trying?
    case WriteNonce(p) => s.pcs[p].Created?
    case Stat(p, stale) => s.pcs[p].Contending? && (stale ==> s.file.Present?)
    case Rename(p) => s.pcs[p].Judged?
    case Retry(p) => s.pcs[p].Waiting?
    case GiveUp(p) => s.pcs[p].Waiting?
    case Leave(p) => s.pcs[p].InSection?
    case ReadBack(p) => s.pcs[p].Leaving?
    case Unlink(p) => s.pcs[p].Matched?
    case Crash(p) => !s.pcs[p].Finished? && !s.pcs[p].TimedOut?
  }

  function Next(s: State, e: Event): State
    requires e.p < |s.pcs|
  {
    match e
    case Open(p) =>
      if s.file.Absent? then State(Present(p, false), s.pcs[p := Created]) else s.(pcs := s.pcs[p := Contending])
    // The nonce goes to the created file, wherever that has been moved meanwhile.
    case WriteNonce(p) =>
      State(if s.file.Present? && s.file.creator == p then Present(p, true) else s.file, s.pcs[p := InSection])
    case Stat(p, stale) => s.(pcs := s.pcs[p := if stale then Judged else Waiting])
    // The rename takes whatever generation is there now, or fails.
    case Rename(p) => if s.file.Present? then State(Absent, s.pcs[p := Trying]) else s.(pcs := s.pcs[p := Waiting])
    case Retry(p) => s.(pcs := s.pcs[p := Trying])
    case GiveUp(p) => s.(pcs := s.pcs[p := TimedOut])
    case Leave(p) => s.(pcs := s.pcs[p := Leaving])
    case ReadBack(p) => s.(pcs := s.pcs[p := if s.file == Present(p, true) then Matched else Finished])
    case Unlink(p) => State(Absent, s.pcs[p := Finished])
    case Crash(p) => s.(pcs := s.pcs[p := Crashed])
  }

  predicate Initial(s: State) {
    s.file.Absent? && forall p :: 0 <= p < |s.pcs| ==> s.pcs[p].Trying?
  }

  /** Any interleaving of any number of processes. */
  datatype Trace = Trace(events: seq<Event>, states: seq<State>)
  {
    ghost predicate StepAt(i: nat)
      requires |states| == |events| + 1 && i < |events|
    {
      Can(states[i], events[i]) && states[i + 1] == Next(states[i], events[i])
    }

    ghost predicate Valid() {
      && |states| == |events| + 1
      && Initial(states[0])
      && forall i :: 0 <= i < |events| ==> StepAt(i)
    }
  }

  // ---- what may go wrong ---------------------------------------------------

  /** The step renames away the file of a process that still holds the lock. */
  predicate StealsLive(s: State, e: Event) {
    e.Rename? && s.file.Present? && s.file.creator < |s.pcs| && s.pcs[s.file.creator].Holds()
  }

  predicate Exclusive(s: State) {
    forall p, q :: 0 <= p < q < |s.pcs| ==> !(s.pcs[p].InSection? && s.pcs[q].InSection?)
  }

  /** The file is the holder's own, with its nonce in it once written; otherwise it
      was left behind by a crash. */
  ghost predicate Inv(s: State) {
    && (forall p :: 0 <= p < |s.pcs| && s.pcs[p].Holds() ==> s.file == Present(p, !s.pcs[p].Created?))
    && (s.file.Present? ==>
        s.file.creator < |s.pcs| && (s.pcs[s.file.creator].Holds() || s.pcs[s.file.creator].Crashed?))
  }

  lemma NextInv(s: State, e: Event)
    requires Inv(s) && Can(s, e) && !StealsLive(s, e)
    ensures Inv(Next(s, e))
  {
  }

  lemma {:induction false} TraceInv(t: Trace, i: nat)
    requires t.Valid() && i <= |t.events|
    requires forall k :: 0 <= k < i ==> !StealsLive(t.states[k], t.events[k])
    ensures Inv(t.states[i])
  {
    if i > 0 {
      TraceInv(t, i - 1);
      assert t.StepAt(i - 1);
      NextInv(t.states[i - 1], t.events[i - 1]);
    }
  }

  /** As long as no live lock file has been renamed away, at most one process is in
      its critical section; a leaving process reads its own nonce; and an unlink
      removes the unlinker's own file. Crashes and steals of dead locks included. */
  lemma MutualExclusion(t: Trace, i: nat)
    requires t.Valid() && i <= |t.events|
    requires forall k :: 0 <= k < i ==> !StealsLive(t.states[k], t.events[k])
    ensures Exclusive(t.states[i])
    ensures i < |t.events| && t.events[i].ReadBack? ==> t.states[i].file == Present(t.events[i].p, true)
    ensures i < |t.events| && t.events[i].Unlink? ==> t.states[i].file == Present(t.events[i].p, true)
  {
    TraceInv(t, i);
    if i < |t.events| {
      assert t.StepAt(i);
    }
  }

  lemma {:induction false} JudgedBefore(t: Trace, i: nat, p: nat)
    requires t.Valid() && i <= |t.events| && p < |t.states[i].pcs| && t.states[i].pcs[p].Judged?
    ensures exists k :: 0 <= k < i && t.events[k] == Stat(p, true)
  {
    if i > 0 {
      assert t.StepAt(i - 1);
      if t.events[i - 1] != Stat(p, true) {
        JudgedBefore(t, i - 1, p);
      }
    }
  }

  /** In particular when no lock file is ever judged stale. */
  lemma NeverStaleIsExclusive(t: Trace, i: nat)
    requires t.Valid() && i <= |t.events|
    requires forall k :: 0 <= k < i ==> !(t.events[k].Stat? && t.events[k].stale)
    ensures Exclusive(t.states[i])
    ensures i < |t.events| && t.events[i].Unlink? ==> t.states[i].file == Present(t.events[i].p, true)
  {
    forall k | 0 <= k < i
      ensures !StealsLive(t.states[k], t.events[k])
    {
      assert t.StepAt(k);
      if t.events[k].Rename? {
        JudgedBefore(t, k, t.events[k].p);
      }
    }
    MutualExclusion(t, i);
  }

  /** The step deletes the lock file of another process. */
  predicate DropsAnother(s: State, e: Event) {
    e.Unlink? && s.file.Present? && s.file.creator != e.p
  }

  // ---- after a steal -------------------------------------------------------

  /** These steps can follow, one after the other, and rename no live lock file. */
  predicate Quiet(s: State, events: seq<Event>)
    decreases |events|
  {
    events == [] || (Can(s, events[0]) && !StealsLive(s, events[0]) && Quiet(Next(s, events[0]), events[1..]))
  }

  function Reached(s: State, events: seq<Event>): State
    requires Quiet(s, events)
    decreases |events|
  {
    if events == [] then s else Reached(Next(s, events[0]), events[1..])
  }

  /** Exclusion can be lost from here on, with no (further) live steal. */
  ghost predicate Breakable(s: State) {
    exists events :: Quiet(s, events) && !Exclusive(Reached(s, events))
  }

  /** Running, or able to run the critical section one day. */
  predicate MayEnter(pc: Pc) {
    pc.Trying? || pc.Contending? || pc.Judged? || pc.Waiting?
  }

  /** The renamed file's creator has not run its section to the end; or it is about
      to unlink, and besides the stealer a third process is there to profit. */
  predicate Fatal(s: State, q: nat)
    requires s.file.Present? && s.file.creator < |s.pcs|
  {
    var creator := s.pcs[s.file.creator];
    || creator.Created?
    || creator.InSection?
    || (creator.Matched? && exists t :: 0 <= t < |s.pcs| && t != q && MayEnter(s.pcs[t]))
  }

  lemma StepBack(s: State, e: Event)
    requires Can(s, e) && !StealsLive(s, e) && Breakable(Next(s, e))
    ensures Breakable(s)
  {
    var events :| Quiet(Next(s, e), events) && !Exclusive(Reached(Next(s, e), events));
    assert ([e] + events)[1..] == events;
    assert Quiet(s, [e] + events) && Reached(s, [e] + events) == Reached(Next(s, e), events);
  }

  lemma TwoInSection(s: State, p: nat, q: nat)
    requires p < |s.pcs| && q < |s.pcs| && p != q && s.pcs[p].InSection? && s.pcs[q].InSection?
    ensures !Exclusive(s) && Breakable(s)
  {
    if p < q {
      assert !(!(s.pcs[p].InSection? && s.pcs[q].InSection?));
    } else {
      assert !(!(s.pcs[q].InSection? && s.pcs[p].InSection?));
    }
    assert Quiet(s, []) && Reached(s, []) == s;
  }

  /** One process is in its section, the file is not there, and another may enter. */
  lemma EntryBreaks(s: State, p: nat, t: nat)
    requires p < |s.pcs| && t < |s.pcs| && p != t && s.pcs[p].InSection? && s.file.Absent? && MayEnter(s.pcs[t])
    ensures Breakable(s)
    decreases if s.pcs[t].Trying? then 0 else if s.pcs[t].Waiting? then 1 else 2
  {
    match s.pcs[t]
    case Trying =>
      var created := Next(s, Open(t));
      TwoInSection(Next(created, WriteNonce(t)), p, t);
      StepBack(created, WriteNonce(t));
      StepBack(s, Open(t));
    case Contending =>
      EntryBreaks(Next(Next(s, Stat(t, false)), Retry(t)), p, t);
      StepBack(Next(s, Stat(t, false)), Retry(t));
      StepBack(s, Stat(t, false));
    case Judged =>
      EntryBreaks(Next(Next(s, Rename(t)), Retry(t)), p, t);
      StepBack(Next(s, Rename(t)), Retry(t));
      StepBack(s, Rename(t));
    case Waiting =>
      EntryBreaks(Next(s, Retry(t)), p, t);
      StepBack(s, Retry(t));
  }

  lemma FatalBreaks(s: State, q: nat)
    requires Inv(s) && q < |s.pcs| && s.pcs[q].Judged? && s.file.Present? && Fatal(s, q)
    ensures Breakable(Next(s, Rename(q)))
  {
    var c := s.file.creator;
    var stolen := Next(s, Rename(q));
    var created := Next(stolen, Open(q));
    var taken := Next(created, WriteNonce(q));
    if s.pcs[c].Created? {
      TwoInSection(Next(taken, WriteNonce(c)), c, q);
      StepBack(taken, WriteNonce(c));
    } else if s.pcs[c].InSection? {
      TwoInSection(taken, c, q);
    } else {
      var t :| 0 <= t < |s.pcs| && t != q && MayEnter(s.pcs[t]);
      EntryBreaks(Next(taken, Unlink(c)), q, t);
      StepBack(taken, Unlink(c));
    }
    StepBack(created, WriteNonce(q));
    StepBack(stolen, Open(q));
  }

  /** The invariant without process c, which went through its creation, does not own
      the file any more and is not about to unlink. */
  ghost predicate InvWithout(s: State, c: nat) {
    && c < |s.pcs| && (Past(s.pcs[c]) || s.pcs[c].Created? || s.pcs[c].InSection?)
    && (s.file.Present? ==> s.file.creator != c && s.file.creator < |s.pcs|)
    && (s.file.Present? ==> s.pcs[s.file.creator].Holds() || s.pcs[s.file.creator].Crashed?)
    && forall p :: 0 <= p < |s.pcs| && p != c && s.pcs[p].Holds() ==> s.file == Present(p, !s.pcs[p].Created?)
  }

  /** Will never be in the critical section again. */
  predicate Past(pc: Pc) {
    pc.Leaving? || pc.Finished? || pc.Crashed?
  }

  lemma NextInvWithout(s: State, c: nat, e: Event)
    requires InvWithout(s, c) && Can(s, e) && !StealsLive(s, e)
    ensures InvWithout(Next(s, e), c) && !DropsAnother(s, e)
    ensures Past(s.pcs[c]) ==> Past(Next(s, e).pcs[c])
  {
  }

  lemma {:induction false} QuietWithout(s: State, c: nat, events: seq<Event>)
    requires InvWithout(s, c) && Quiet(s, events)
    ensures InvWithout(Reached(s, events), c) && (Past(s.pcs[c]) ==> Past(Reached(s, events).pcs[c]))
    decreases |events|
  {
    if events != [] {
      NextInvWithout(s, c, events[0]);
      QuietWithout(Next(s, events[0]), c, events[1..]);
    }
  }

  /** Only c, about to unlink or gone, and q are left. */
  predicate OnlyTwoLeft(s: State, c: nat, q: nat) {
    && c < |s.pcs| && (s.pcs[c].Matched? || s.pcs[c].Finished? || s.pcs[c].Crashed?)
    && forall p :: 0 <= p < |s.pcs| && p != c && p != q ==>
         s.pcs[p].Finished? || s.pcs[p].TimedOut? || s.pcs[p].Crashed?
  }

  lemma {:induction false} QuietTwoLeft(s: State, c: nat, q: nat, events: seq<Event>)
    requires OnlyTwoLeft(s, c, q) && Quiet(s, events)
    ensures Exclusive(Reached(s, events))
    decreases |events|
  {
    if events != [] {
      QuietTwoLeft(Next(s, events[0]), c, q, events[1..]);
    }
  }

  lemma HarmlessHolds(s: State, q: nat, events: seq<Event>)
    requires Inv(s) && q < |s.pcs| && s.pcs[q].Judged? && s.file.Present? && !Fatal(s, q)
    requires Quiet(Next(s, Rename(q)), events)
    ensures Exclusive(Reached(Next(s, Rename(q)), events))
  {
    var c := s.file.creator;
    if s.pcs[c].Matched? {
      QuietTwoLeft(Next(s, Rename(q)), c, q, events);
    } else {
      QuietWithout(Next(s, Rename(q)), c, events);
      assert Exclusive(Reached(Next(s, Rename(q)), events));
    }
  }

  /** The condition is exact. Up to step i no live lock file was renamed away; now q,
      who judged the file stale, renames it. With no further live steal exclusion can
      still be lost if and only if the file's creator was about to enter or in its
      section, or about to unlink while a third process can enter. A creator that is
      still to read its nonce back does no harm, nor does a crashed one. */
  lemma StealIsFatalExactly(t: Trace, i: nat, q: nat)
    requires t.Valid() && i <= |t.events|
    requires forall k :: 0 <= k < i ==> !StealsLive(t.states[k], t.events[k])
    requires q < |t.states[i].pcs| && t.states[i].pcs[q].Judged? && t.states[i].file.Present?
    ensures Can(t.states[i], Rename(q)) && t.states[i].file.creator < |t.states[i].pcs|
    ensures Breakable(Next(t.states[i], Rename(q))) <==> Fatal(t.states[i], q)
  {
    var s := t.states[i];
    TraceInv(t, i);
    if Fatal(s, q) {
      FatalBreaks(s, q);
    } else if Breakable(Next(s, Rename(q))) {
      var events :| Quiet(Next(s, Rename(q)), events) && !Exclusive(Reached(Next(s, Rename(q)), events));
      HarmlessHolds(s, q, events);
    }
  }

  // ---- honest judgements are not enough ------------------------------------

  /** If the step judges the lock file stale, the file's creator has crashed. */
  predicate JudgesDead(s: State, e: Event) {
    e.Stat? && e.stale ==>
      s.file.Present? && s.file.creator < |s.pcs| && s.pcs[s.file.creator].Crashed?
  }

  lemma Play(t: Trace, e: Event) returns (later: Trace)
    requires t.Valid() && Can(t.states[|t.events|], e)
    ensures later.Valid() && later == Trace(t.events + [e], t.states + [Next(t.states[|t.events|], e)])
  {
    later := Trace(t.events + [e], t.states + [Next(t.states[|t.events|], e)]);
    forall i | 0 <= i < |later.events|
      ensures later.StepAt(i)
    {
      if i < |t.events| {
        assert t.StepAt(i);
      }
    }
  }

  /** In some interleaving of n processes only dead lock files are ever judged stale,
      and yet two processes come to be in their sections together. */
  ghost predicate Races(n: nat) {
    exists t: Trace :: Honest(t) && |t.states[0].pcs| == n && !Exclusive(t.states[|t.events|])
  }

  ghost predicate Honest(t: Trace) {
    t.Valid() && forall k :: 0 <= k < |t.events| ==> JudgesDead(t.states[k], t.events[k])
  }

  lemma PlayHonest(t: Trace, e: Event) returns (later: Trace)
    requires Honest(t) && Can(t.states[|t.events|], e) && JudgesDead(t.states[|t.events|], e)
    ensures Honest(later) && later.events == t.events + [e]
    ensures later.states == t.states + [Next(t.states[|t.events|], e)] && later.states[0] == t.states[0]
  {
    later := Play(t, e);
  }

  /** Process 0 creates the file and crashes, and both 1 and 2 judge that dead file
      stale. */
  lemma TwoHonestJudgements(n: nat) returns (t: Trace)
    requires n >= 3
    ensures Honest(t) && |t.states[0].pcs| == n
    ensures var s := t.states[|t.events|];
            |s.pcs| == n && s.file == Present(0, false) && s.pcs[0].Crashed? && s.pcs[1].Judged? && s.pcs[2].Judged?
  {
    t := Trace([], [State(Absent, seq(n, _ => Trying))]);
    t := PlayHonest(t, Open(0));
    t := PlayHonest(t, Crash(0));
    t := PlayHonest(t, Open(1));
    t := PlayHonest(t, Stat(1, true));
    t := PlayHonest(t, Open(2));
    t := PlayHonest(t, Stat(2, true));
  }

  /** Stat and rename are two steps, so 2 renames the file 1 has just created, and
      both are in the section. */
  lemma HonestJudgementsStillRace(n: nat) returns (t: Trace)
    requires n >= 3
    ensures Honest(t) && |t.states[0].pcs| == n && !Exclusive(t.states[|t.events|])
  {
    t := TwoHonestJudgements(n);
    t := PlayHonest(t, Rename(1));
    t := PlayHonest(t, Open(1));
    t := PlayHonest(t, WriteNonce(1));
    t := PlayHonest(t, Rename(2));
    t := PlayHonest(t, Open(2));
    t := PlayHonest(t, WriteNonce(2));
    TwoInSection(t.states[|t.events|], 1, 2);
  }

  /** With two processes, one that judges the file stale is alone with a crashed one. */
  ghost predicate InvOfTwo(s: State) {
    && |s.pcs| <= 2 && Inv(s)
    && forall p, q :: 0 <= p < |s.pcs| && 0 <= q < |s.pcs| && p != q && s.pcs[p].Judged? ==> s.pcs[q].Crashed?
  }

  lemma NextInvOfTwo(s: State, e: Event)
    requires InvOfTwo(s) && Can(s, e) && JudgesDead(s, e)
    ensures InvOfTwo(Next(s, e))
  {
    assert !StealsLive(s, e);
    NextInv(s, e);
  }

  lemma {:induction false} TwoAreExclusive(t: Trace, i: nat)
    requires Honest(t) && i <= |t.events| && |t.states[0].pcs| <= 2
    ensures InvOfTwo(t.states[i])
  {
    if i > 0 {
      TwoAreExclusive(t, i - 1);
      assert t.StepAt(i - 1);
      NextInvOfTwo(t.states[i - 1], t.events[i - 1]);
    }
  }

  /** Judging only dead locks stale is enough for two processes, and for no more. */
  lemma HonestyIsEnoughExactly(n: nat)
    ensures Races(n) <==> n >= 3
  {
    if n >= 3 {
      var t := HonestJudgementsStillRace(n);
    } else if Races(n) {
      var t: Trace :| Honest(t) && |t.states[0].pcs| == n && !Exclusive(t.states[|t.events|]);
      TwoAreExclusive(t, |t.events|);
    }
  }

  // ---- releases that delete another's lock ---------------------------------

  /** Some release can delete another's lock file from here on, with no (further)
      live steal. */
  ghost predicate MayDrop(s: State) {
    exists events, e :: Quiet(s, events) && Can(Reached(s, events), e) && DropsAnother(Reached(s, events), e)
  }

  /** Reading the nonce back and unlinking are two steps as well: when the file of a
      releasing process is renamed away between them and the stealer creates its
      own, the release deletes the stealer's lock file under it. */
  lemma StolenReleaseDropsAnother(s: State, p: nat, q: nat)
    requires Inv(s) && p < |s.pcs| && q < |s.pcs| && s.pcs[p].Matched? && s.pcs[q].Judged?
    ensures StealsLive(s, Rename(q)) && Can(Next(s, Rename(q)), Open(q))
    ensures var taken := Next(Next(s, Rename(q)), Open(q));
            Can(taken, Unlink(p)) && taken.file == Present(q, false) && taken.pcs[q].Holds()
            && Next(taken, Unlink(p)).file.Absent? && Next(taken, Unlink(p)).pcs[q].Holds()
  {
  }

  lemma MatchedMayDrop(s: State, p: nat, q: nat)
    requires Inv(s) && p < |s.pcs| && q < |s.pcs| && s.pcs[p].Matched? && s.pcs[q].Judged?
    ensures MayDrop(Next(s, Rename(q)))
  {
    var stolen := Next(s, Rename(q));
    StolenReleaseDropsAnother(s, p, q);
    var taken := Next(stolen, Open(q));
    var events := [Open(q)];
    assert events[1..] == [] && Quiet(taken, []) && Reached(taken, []) == taken;
    assert Quiet(stolen, events) && Reached(stolen, events) == taken;
    assert DropsAnother(taken, Unlink(p));
  }

  lemma OthersNeverDrop(s: State, q: nat)
    requires Inv(s) && q < |s.pcs| && s.pcs[q].Judged? && s.file.Present? && !s.pcs[s.file.creator].Matched?
    ensures !MayDrop(Next(s, Rename(q)))
  {
    var stolen := Next(s, Rename(q));
    forall events, e | Quiet(stolen, events) && Can(Reached(stolen, events), e)
      ensures !DropsAnother(Reached(stolen, events), e)
    {
      QuietWithout(stolen, s.file.creator, events);
    }
  }

  /** The condition is exact for releases, too. Up to step i no live lock file was
      renamed away; now q renames it. With no further live steal a release can delete
      another's lock file if and only if the renamed file's creator had read its nonce
      back and was about to unlink. */
  lemma StealDropsExactly(t: Trace, i: nat, q: nat)
    requires t.Valid() && i <= |t.events|
    requires forall k :: 0 <= k < i ==> !StealsLive(t.states[k], t.events[k])
    requires q < |t.states[i].pcs| && t.states[i].pcs[q].Judged? && t.states[i].file.Present?
    ensures Can(t.states[i], Rename(q)) && t.states[i].file.creator < |t.states[i].pcs|
    ensures MayDrop(Next(t.states[i], Rename(q))) <==> t.states[i].pcs[t.states[i].file.creator].Matched?
  {
    var s := t.states[i];
    TraceInv(t, i);
    if s.pcs[s.file.creator].Matched? {
      MatchedMayDrop(s, s.file.creator, q);
    } else {
      OthersNeverDrop(s, q);
    }
  }

  /** Such a state is reached when a live but old lock file is judged stale. */
  lemma StolenReleaseHappens() returns (t: Trace)
    ensures t.Valid() && |t.events| == 9 && t.events[8] == Unlink(0)
    ensures t.states[8] == State(Present(1, false), [Matched, Created])
            && t.states[9] == State(Absent, [Finished, Created])
  {
    t := Trace([], [State(Absent, [Trying, Trying])]);
    t := Play(t, Open(0));
    t := Play(t, WriteNonce(0));
    t := Play(t, Open(1));
    t := Play(t, Stat(1, true));
    t := Play(t, Leave(0));
    t := Play(t, ReadBack(0));
    t := Play(t, Rename(1));
    t := Play(t, Open(1));
    t := Play(t, Unlink(0));
  }
}
