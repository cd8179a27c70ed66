/** A job record and its transition table (packages/plugin-sdk/plugin.go). */
module Jobs {
  import opened Base

  /** `Blank` is the empty status that Enqueue reads as Pending. */
  datatype Status =
    | Blank | Pending | Running | Retrying | Paused | Cancelled | Failed | Dead | Done
    | Unsupported(text: string)

  datatype ReasonCode =
    | NoReason | RuntimeRestart | WorkerAbandoned | TimedOut
    | DispatchRetry | DispatchDead | ExecutionRetry | ExecutionDead
    | OtherReason(text: string)

  /** The part of a payload that the workflow hand-off reads. */
  datatype Payload = Payload(workflowId: string, pluginId: string)

  datatype Job = Job(
    id: string,
    kind: string,
    status: Status,
    payload: Payload,
    retryCount: int,
    maxRetries: int,
    timeout: int,
    lastError: string,
    reasonCode: ReasonCode,
    createdAt: Time,
    startedAt: Option<Time>,
    finishedAt: Option<Time>,
    nextRunAt: Option<Time>,
    workerId: string,
    leaseAcquiredAt: Option<Time>,
    leaseExpiresAt: Option<Time>,
    heartbeatAt: Option<Time>,
    deadLetter: bool)

  predicate ValidJob(job: Job) {
    && job.id != "" && job.kind != ""
    && !job.status.Unsupported?
    && job.maxRetries >= 0 && job.retryCount >= 0 && job.timeout >= 0
  }

  predicate IsTerminal(status: Status) {
    status in {Done, Cancelled, Failed, Dead}
  }

  function AllowedNext(status: Status): set<Status> {
    match status
    case Pending => {Running, Paused, Cancelled, Dead}
    case Running => {Retrying, Failed, Dead, Done}
    case Retrying => {Running, Paused, Cancelled, Dead}
    case Paused => {Pending, Retrying}
    case Failed => {Retrying, Dead}
    case _ => {}
  }

  predicate CanTransition(job: Job, next: Status) {
    next in AllowedNext(job.status)
  }

  /** The record after a permitted move to `next`, or None when the move is refused. */
  function Transition(job: Job, next: Status, at: Time, lastError: string): Option<Job> {
    if !CanTransition(job, next) then None else
    var updated := job.(status := next, lastError := lastError);
    Some(match next
      case Pending => updated.(nextRunAt := None)
      case Running => updated.(startedAt := Some(at), nextRunAt := None)
      case Retrying =>
        if job.status.Paused? then
          updated.(
            nextRunAt := if IsSet(job.nextRunAt) then job.nextRunAt else Some(at),
            lastError := if TrimSpace(lastError) == "" then job.lastError else lastError)
        else
          updated.(retryCount := job.retryCount + 1, nextRunAt := Some(at))
      case Paused =>
        if job.status.Retrying? then
          updated.(lastError := if TrimSpace(lastError) == "" then job.lastError else lastError)
        else
          updated.(nextRunAt := None)
      case Cancelled => updated.(nextRunAt := None, finishedAt := Some(at))
      case Dead => updated.(finishedAt := Some(at), deadLetter := true)
      case _ => updated.(finishedAt := Some(at)))
  }

  /** The moves of a job, from and to. */
  predicate MayMove(from: Status, to: Status) {
    || (from in {Pending, Retrying} && to in {Running, Paused, Cancelled, Dead})
    || (from == Running && to in {Retrying, Failed, Dead, Done})
    || (from == Paused && to in {Pending, Retrying})
    || (from == Failed && to in {Retrying, Dead})
  }

  /** What a move leaves: a run starts now, a retry that was not paused counts and is due at the given instant, a paused
      retry keeps its due time and, when no text is given, its error, an end is stamped, and a death is marked. */
  lemma TransitionExactly(job: Job, to: Status, at: Time, text: string)
    ensures Transition(job, to, at, text).Some? <==> MayMove(job.status, to)
    ensures MayMove(job.status, to) ==>
              var (after, moved) := (Transition(job, to, at, text).value, job.(status := to, lastError := text));
              var kept := if IsBlank(text) then job.lastError else text;
              && (to == Pending ==> after == moved.(nextRunAt := None))
              && (to == Running ==> after == moved.(startedAt := Some(at), nextRunAt := None))
              && (to == Retrying && job.status != Paused ==>
                    after == moved.(retryCount := job.retryCount + 1, nextRunAt := Some(at)))
              && (to == Retrying && job.status == Paused ==>
                    after == moved.(lastError := kept,
                                    nextRunAt := if IsSet(job.nextRunAt) then job.nextRunAt else Some(at)))
              && (to == Paused && job.status == Retrying ==> after == moved.(lastError := kept))
              && (to == Paused && job.status == Pending ==> after == moved.(nextRunAt := None))
              && (to == Cancelled ==> after == moved.(nextRunAt := None, finishedAt := Some(at)))
              && (to == Dead ==> after == moved.(finishedAt := Some(at), deadLetter := true))
              && (to in {Failed, Done} ==> after == moved.(finishedAt := Some(at)))
  {
  }

  /** Done, Cancelled and Dead admit no further move; every other named status admits one. */
  lemma TerminalStatesAreClosed(job: Job, at: Time, lastError: string)
    ensures job.status in {Cancelled, Dead, Done} ==> forall next :: Transition(job, next, at, lastError) == None
    ensures job.status in {Pending, Running, Retrying, Paused, Failed} ==>
              exists next :: next != job.status && Transition(job, next, at, lastError).Some?
  {
    if job.status in {Pending, Retrying} {
      assert Transition(job, Running, at, lastError).Some?;
    } else if job.status.Running? {
      assert Transition(job, Done, at, lastError).Some?;
    } else if job.status.Paused? {
      assert Transition(job, Pending, at, lastError).Some?;
    } else if job.status.Failed? {
      assert Transition(job, Dead, at, lastError).Some?;
    }
  }
}
