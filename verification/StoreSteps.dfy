/** Every public call on the job store as one atomic step on the store file:
    load, sweep, prune, then the operation itself. `Step` always writes the
    result back; RelayStore shows that writing only after a change is the same. */
module StoreSteps {
  import opened RelayTypes
  import opened JobSweep

  // ---- operations, replies -------------------------------------------------

  /** The operations addressed to one job. */
  datatype JobOp =
    | ClaimOp(worker: Option<string>, leaseMs: Option<int>, freshToken: string)
    | StartOp(token: string)
    | HeartbeatOp(token: string, leaseMs: Option<int>)
    | ReleaseOp(token: string)
    | CompleteOp(token: string, result: Option<string>)
    | FailOp(token: string, error: Option<string>, retry: bool)
    | CancelOp
    | ParkOp(token: string, error: Option<string>)
    | RecoverOp
    | ReviewOp(token: string, reason: Option<string>, kind: ReviewKind, result: Option<string>)
    | ResolveOp(approve: bool, note: Option<string>, resolver: Option<string>)
  {
    /** The operation is fenced by this claim token. */
    predicate Carries(t: string) {
      match this
      case StartOp(token) => token == t
      case HeartbeatOp(token, _) => token == t
      case ReleaseOp(token) => token == t
      case CompleteOp(token, _) => token == t
      case FailOp(token, _, _) => token == t
      case ParkOp(token, _) => token == t
      case ReviewOp(token, _, _, _) => token == t
      case _ => false
    }

    /** The operation gives up the claim when it is accepted. */
    predicate Settles(t: string) {
      Carries(t) && !StartOp? && !HeartbeatOp?
    }
  }

  datatype Op =
    | Enqueue(requestId: string, to: Option<string>, from: Option<string>, payload: Payload, ttl: Option<int>,
              maxAttempts: Option<int>, policy: Policy, freshId: string)
    | OnJob(id: string, act: JobOp)
    | Register(agent: string)
    | GetJob(id: string)
    | FindByRequest(requestId: string)
    | ListJobs
    | Inbox(agent: string, limit: int)
    | ListAgents

  datatype Reason =
    | Unexplained
    | NotFound
    | AlreadyTerminal
    | NotClaimed
    | StaleToken
    | InvalidKind
    | KindMismatch
    | NotInReview

  datatype Reply =
    | Enqueued(jobId: string, deduped: bool, job: Job)
    | NotTaken
    | Taken(job: Job, token: string)
    | Accepted(job: Job)
    | Refused(reason: Reason, seen: Option<Job>)
    | OneJob(found: Option<Job>)
    | ManyJobs(jobs: seq<Job>)
    | Registered(agent: string, meta: Agent)
    | AllAgents(agents: map<string, Agent>)

  /** One call: who made it, the clock reading it took before it got the lock,
      its retention settings and the operation. Readings need not be monotone. */
  datatype Call = Call(caller: nat, now: int, opts: Opts, op: Op)

  // ---- lookup --------------------------------------------------------------

  /** The position of the first job with this id, |jobs| when there is none. */
  function Position(jobs: seq<Job>, id: string): (r: nat)
    ensures r <= |jobs|
    ensures r < |jobs| ==> jobs[r].id == id
    ensures forall k :: 0 <= k < r ==> jobs[k].id != id
  {
    if jobs == [] then 0
    else
      var r := Position(jobs[..|jobs| - 1], id);
      if r < |jobs| - 1 || jobs[|jobs| - 1].id == id then r else |jobs|
  }

  function Find(jobs: seq<Job>, id: string): Option<Job> {
    var r := Position(jobs, id);
    if r < |jobs| then Some(jobs[r]) else None
  }

  /** The dedup index derived from the job list. */
  function IndexOf(jobs: seq<Job>): map<string, string> {
    if jobs == [] then map[]
    else
      var last := jobs[|jobs| - 1];
      var index := IndexOf(jobs[..|jobs| - 1]);
      if last.requestId != "" then index[last.requestId := last.id] else index
  }

  // ---- one operation on one job --------------------------------------------

  datatype Acted = Acted(job: Job, reply: Reply, changed: bool)

  function Accept(j: Job): Acted {
    Acted(j, Accepted(j), true)
  }

  function Refuse(j: Job, reason: Reason): Acted {
    Acted(j, Refused(reason, Some(j)), false)
  }

  function Deadline(now: int, leaseMs: Option<int>): Option<int> {
    if leaseMs.Some? then Some(now + leaseMs.value) else None
  }

  /** Why a fenced settling call is refused, if it is. */
  function Fence(j: Job, token: string): Option<Reason> {
    if j.state.Terminal() then Some(AlreadyTerminal)
    else if !j.state.InFlight() then Some(NotClaimed)
    else if !j.Holds(token) then Some(StaleToken)
    else None
  }

  const PARKED := "parked for explicit recovery"
  const REJECTED := "rejected in human review"

  function OrElse(s: Option<string>, default: string): Option<string> {
    if s.Some? then s else Some(default)
  }

  function Act(j: Job, now: int, act: JobOp): Acted {
    match act
    case ClaimOp(worker, leaseMs, token) =>
      if !j.state.Queued? then Acted(j, NotTaken, false)
      else
        var k := j.(state := Claimed, claim := Some(Claim(worker, token, now, Deadline(now, leaseMs))),
                    updatedAt := now);
        Acted(k, Taken(k, token), true)
    case StartOp(token) =>
      if !j.state.Claimed? || !j.Holds(token) then Refuse(j, Unexplained)
      else Accept(j.(state := Running, updatedAt := now))
    case HeartbeatOp(token, leaseMs) =>
      if !j.state.InFlight() || !j.Holds(token) then Refuse(j, Unexplained)
      else Accept(j.(claim := Some(j.claim.value.(expiresAt := Deadline(now, leaseMs))), updatedAt := now))
    case ReleaseOp(token) =>
      if !j.state.InFlight() || !j.Holds(token) then Refuse(j, Unexplained)
      else Accept(j.(state := Queued, claim := None, updatedAt := now))
    case CompleteOp(token, result) =>
      if j.state.Completed? && j.completedBy == Some(token) then Acted(j, Accepted(j), false)
      else if Fence(j, token).Some? then Refuse(j, Fence(j, token).value)
      else Accept(j.(state := Completed, result := result, completedBy := Some(token), terminalAt := Some(now),
                     claim := None, updatedAt := now))
    case FailOp(token, error, retry) =>
      if Fence(j, token).Some? then Refuse(j, Fence(j, token).value)
      else if retry && j.attempts + 1 < j.maxAttempts then
        Accept(j.(state := Queued, attempts := j.attempts + 1, claim := None, updatedAt := now))
      else
        Accept(j.(state := Failed, attempts := j.attempts + 1, claim := None, updatedAt := now, error := error,
                  terminalAt := Some(now)))
    case CancelOp =>
      if j.state.Terminal() then Refuse(j, AlreadyTerminal)
      else Accept(j.(state := Cancelled, claim := None, terminalAt := Some(now), updatedAt := now))
    case ParkOp(token, error) =>
      if Fence(j, token).Some? then Refuse(j, Fence(j, token).value)
      else Accept(j.(state := NeedsRecovery, error := OrElse(error, PARKED), terminalAt := Some(now), claim := None,
                     updatedAt := now))
    case RecoverOp =>
      if !j.state.NeedsRecovery? then Refuse(j, Unexplained)
      else Accept(j.(state := Queued, claim := None, terminalAt := None, error := None, attempts := 0,
                     updatedAt := now))
    case ReviewOp(token, reason, kind, result) =>
      if j.state.Terminal() then Refuse(j, AlreadyTerminal)
      else if kind.OtherKind? then Refuse(j, InvalidKind)
      else if !j.state.InFlight() then Refuse(j, NotClaimed)
      else if (kind.Predeclared? && !j.state.Claimed?) || (kind.SelfFlagged? && !j.state.Running?) then
        Refuse(j, KindMismatch)
      else if !j.Holds(token) then Refuse(j, StaleToken)
      else Accept(j.(state := NeedsReview, riskReason := reason, reviewKind := Some(kind), result := result,
                     terminalAt := Some(now), claim := None, updatedAt := now))
    case ResolveOp(approve, note, resolver) =>
      if !j.state.NeedsReview? then Refuse(j, NotInReview)
      else
        var k := j.(reviewBy := resolver, reviewAt := Some(now), reviewNote := note, updatedAt := now);
        if !approve then Accept(k.(state := Failed, error := OrElse(note, REJECTED), terminalAt := Some(now)))
        else if k.reviewKind == Some(Predeclared) then
          Accept(k.(state := Queued, attempts := 0, claim := None, cleared := true, terminalAt := None, error := None))
        else if k.reviewKind == Some(SelfFlagged) then Accept(k.(state := Completed, terminalAt := Some(now)))
        // The fields above are already written, yet the call reports no change.
        else Acted(k, Refused(InvalidKind, Some(k)), false)
  }

  /** The reply when the addressed job does not exist. */
  function Missing(act: JobOp): Reply {
    match act
    case ClaimOp(_, _, _) => NotTaken
    case StartOp(_) => Refused(Unexplained, None)
    case HeartbeatOp(_, _) => Refused(Unexplained, None)
    case ReleaseOp(_) => Refused(Unexplained, None)
    case RecoverOp => Refused(Unexplained, None)
    case _ => Refused(NotFound, None)
  }

  // ---- the whole step ------------------------------------------------------

  datatype StepResult = StepResult(store: StoreData, reply: Reply, changed: bool)

  /** The store in memory after load, sweep and prune. */
  function Opened(s: StoreData, now: int, opts: Opts): StoreData {
    var jobs := Prune(SweepJobs(Filter(s.jobs, HasId), now), now, opts);
    StoreData(jobs, IndexOf(jobs), s.agents)
  }

  function NewJob(op: Op, now: int): Job
    requires op.Enqueue?
  {
    Job(op.freshId, op.requestId, Queued, op.to, op.from, op.payload, now, now, None, op.ttl,
        if op.maxAttempts.Some? then op.maxAttempts.value else DEFAULT_MAX_ATTEMPTS,
        op.policy, 0, None, None, None, None, None, None, None, None, false, None)
  }

  function Take(jobs: seq<Job>, limit: int): seq<Job> {
    if limit <= 0 then [] else if limit < |jobs| then jobs[..limit] else jobs
  }

  /** The operation proper, on an opened store. */
  function Apply(s: StoreData, now: int, op: Op): StepResult {
    match op
    case Enqueue(requestId, _, _, _, _, _, _, freshId) =>
      var known := if requestId in s.index then Find(s.jobs, s.index[requestId]) else None;
      if known.Some? then StepResult(s, Enqueued(known.value.id, true, known.value), false)
      else
        var job := NewJob(op, now);
        StepResult(s.(jobs := s.jobs + [job], index := s.index[requestId := freshId]),
                   Enqueued(freshId, false, job), true)
    case OnJob(id, act) =>
      var i := Position(s.jobs, id);
      if i == |s.jobs| then StepResult(s, Missing(act), false)
      else
        var acted := Act(s.jobs[i], now, act);
        StepResult(s.(jobs := s.jobs[i := acted.job]), acted.reply, acted.changed)
    case Register(agent) =>
      var meta := Agent(if agent in s.agents then s.agents[agent].registeredAt else now, now);
      StepResult(s.(agents := s.agents[agent := meta]), Registered(agent, meta), true)
    case GetJob(id) => StepResult(s, OneJob(Find(s.jobs, id)), false)
    case FindByRequest(requestId) =>
      StepResult(s, OneJob(if requestId in s.index then Find(s.jobs, s.index[requestId]) else None), false)
    case ListJobs => StepResult(s, ManyJobs(s.jobs), false)
    case Inbox(agent, limit) => StepResult(s, ManyJobs(Take(Filter(s.jobs, InInbox(agent)), limit)), false)
    case ListAgents => StepResult(s, AllAgents(s.agents), false)
  }

  function Step(s: StoreData, c: Call): StepResult {
    Apply(Opened(s, c.now, c.opts), c.now, c.op)
  }
}
