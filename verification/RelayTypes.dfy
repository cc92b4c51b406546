/** The entities of the job relay: job records, claims, review kinds and the
    nine-state life cycle. Times are unbounded integers (milliseconds); an
    absent value (null in the store file) is None. */
module RelayTypes {

  datatype Option<+T> = None | Some(value: T)

  datatype State =
    | Queued
    | Claimed
    | Running
    | Completed
    | Failed
    | Cancelled
    | Expired
    | NeedsRecovery
    | NeedsReview
  {
    predicate InFlight() {
      Claimed? || Running?
    }

    /** Settled states that retention and the hard cap may evict. */
    predicate Prunable() {
      Completed? || Failed? || Cancelled? || Expired?
    }

    /** Settled states, including the two that wait for an operator. */
    predicate Terminal() {
      Prunable() || NeedsRecovery? || NeedsReview?
    }
  }

  /** What lease expiry does to an in-flight job. */
  datatype Policy = Requeue | Park

  /** OtherKind stands for any string that is neither of the two valid kinds. */
  datatype ReviewKind = Predeclared | SelfFlagged | OtherKind(name: string)

  /** A task payload after coercion. `prompt` is empty when the prompt is absent
      or not a string; `gate` is the trimmed `requireReview` motive, empty when it
      is absent, not a string or blank. */
  datatype Payload = Malformed | Task(prompt: string, write: bool, gate: string)
  {
    predicate Writes() {
      Task? && write
    }

    predicate Gated() {
      Task? && gate != ""
    }
  }

  datatype Claim = Claim(worker: Option<string>, token: string, claimedAt: int, expiresAt: Option<int>)

  datatype Job = Job(
    id: string,
    requestId: string,
    state: State,
    to: Option<string>,
    from: Option<string>,
    payload: Payload,
    enqueuedAt: int,
    updatedAt: int,
    terminalAt: Option<int>,
    ttl: Option<int>,
    maxAttempts: int,
    policy: Policy,
    attempts: int,
    claim: Option<Claim>,
    completedBy: Option<string>,
    result: Option<string>,
    error: Option<string>,
    riskReason: Option<string>,
    reviewKind: Option<ReviewKind>,
    reviewBy: Option<string>,
    reviewAt: Option<int>,
    cleared: bool,
    reviewNote: Option<string>)
  {
    /** The current claim carries this token. */
    predicate Holds(token: string) {
      claim.Some? && claim.value.token == token
    }

    /** The attempts the job gets before it fails for good; even a limit below one
        allows the first. */
    function Allowance(): int {
      if maxAttempts < 1 then 1 else maxAttempts
    }
  }

  datatype Agent = Agent(registeredAt: int, lastSeen: int)

  /** The content of the store file. */
  datatype StoreData = StoreData(jobs: seq<Job>, index: map<string, string>, agents: map<string, Agent>)

  /** Per-call retention settings. */
  datatype Opts = Opts(retentionMs: int, maxJobs: int)

  const DEFAULT_MAX_ATTEMPTS := 5
  const DEFAULT_OPTS := Opts(24 * 60 * 60 * 1000, 500)
}
