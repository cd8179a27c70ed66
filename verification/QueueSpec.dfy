/** What one queue operation does, as a function of the state it finds
    (packages/runtime-core/job_queue.go). */
module QueueSpec {
  import opened Base
  import opened Jobs
  import opened JobStores

  datatype Config = Config(workerId: string, leaseTTL: int)

  datatype State = State(jobs: map<string, Job>, dead: seq<Job>, tables: Tables)

  datatype QueueError = InvalidJob | AlreadyExists | NotFound | Refused | PersistFailed

  /** The operations on one existing job. */
  datatype Request =
    | Heartbeat | MarkRunning | Retry | Complete
    | Fail(reason: string) | FailWith(reason: string, code: ReasonCode) | Timeout
    | RetryDeadLetter | Pause | Resume | Cancel

  // ---- Changes to one record ----

  function ClearOwnership(job: Job): Job {
    job.(workerId := "", leaseAcquiredAt := None, leaseExpiresAt := None, heartbeatAt := None)
  }

  function StampRunning(cfg: Config, job: Job, at: Time): Job {
    job.(lastError := "", reasonCode := NoReason, workerId := cfg.workerId,
         leaseAcquiredAt := Some(at), heartbeatAt := Some(at), leaseExpiresAt := Some(at + cfg.leaseTTL))
  }

  function RenewLease(cfg: Config, job: Job, at: Time): Job {
    job.(heartbeatAt := Some(at),
         leaseAcquiredAt := if IsSet(job.leaseAcquiredAt) then job.leaseAcquiredAt else Some(at),
         workerId := if TrimSpace(job.workerId) == "" then cfg.workerId else job.workerId,
         leaseExpiresAt := Some(at + cfg.leaseTTL))
  }

  predicate LeaseExpired(job: Job, at: Time) {
    IsSet(job.leaseExpiresAt) && job.leaseExpiresAt.value <= at
  }

  function ApplyFailure(job: Job, code: ReasonCode): Job {
    ClearOwnership(job.(reasonCode := code))
  }

  function ExecutionReason(job: Job): ReasonCode {
    if job.retryCount < job.maxRetries then ExecutionRetry else ExecutionDead
  }

  function DeadReason(code: ReasonCode): ReasonCode {
    match code
    case DispatchRetry => DispatchDead
    case ExecutionRetry => ExecutionDead
    case _ => code
  }

  function Backoff(retryCount: int): int {
    (if retryCount < 1 then 1 else retryCount) * SECOND
  }

  function Revive(job: Job): Job {
    ClearOwnership(job.(status := Pending, lastError := "", reasonCode := NoReason, startedAt := None,
                        finishedAt := None, nextRunAt := None, deadLetter := false))
  }

  function AfterClaim(cfg: Config, job: Job, now: Time): Option<Job> {
    match Transition(job, Running, now, "")
    case Some(moved) => Some(StampRunning(cfg, moved, now))
    case None => None
  }

  function AfterFailure(job: Job, reason: string, code: ReasonCode, now: Time): Option<Job> {
    if job.retryCount < job.maxRetries then
      match Transition(job, Retrying, now + Backoff(job.retryCount + 1), reason)
      case Some(moved) => Some(ApplyFailure(moved, code))
      case None => None
    else
      match Transition(job, Dead, now, reason)
      case Some(moved) => Some(ApplyFailure(moved, DeadReason(code)))
      case None => None
  }

  /** Moves a job without a failure and drops its lease. */
  function AfterRelease(job: Job, next: Status, now: Time): Option<Job> {
    match Transition(job, next, now, "")
    case Some(moved) => Some(ClearOwnership(moved))
    case None => None
  }

  function AfterResume(job: Job, now: Time): Option<Job> {
    var next := if IsSet(job.nextRunAt) then Retrying else Pending;
    match Transition(job, next, now, "")
    case Some(moved) => Some(ClearOwnership(if next.Pending? then moved.(reasonCode := NoReason) else moved))
    case None => None
  }

  predicate Waiting(job: Job) {
    job.status.Pending? || job.status.Retrying?
  }

  /** The record that `request` leads to, or None when the queue refuses it. */
  function Decide(cfg: Config, job: Job, request: Request, now: Time): Option<Job> {
    match request
    case Heartbeat => if job.status.Running? then Some(RenewLease(cfg, job, now)) else None
    case MarkRunning => AfterClaim(cfg, job, now)
    case Retry => AfterClaim(cfg, job, now)
    case Complete => AfterRelease(job, Done, now)
    case Fail(reason) => AfterFailure(job, reason, ExecutionReason(job), now)
    case FailWith(reason, code) => AfterFailure(job, reason, code, now)
    case Timeout => AfterFailure(job, "timeout", TimedOut, now)
    case RetryDeadLetter => if job.status.Dead? && job.deadLetter then Some(Revive(job)) else None
    case Pause => if Waiting(job) then AfterRelease(job, Paused, now) else None
    case Resume => if job.status.Paused? then AfterResume(job, now) else None
    case Cancel => if Waiting(job) then AfterRelease(job, Cancelled, now) else None
  }

  // ---- Write-through ----

  function RemoveFirst(dead: seq<Job>, id: string): seq<Job> {
    if dead == [] then []
    else if dead[0].id == id then dead[1..]
    else [dead[0]] + RemoveFirst(dead[1..], id)
  }

  function Persist(t: Tables, request: Request, after: Job, up: bool): Option<Tables> {
    if after.status.Dead? then SaveDeadLetter(t, after, DeadLetterAlert(after), up)
    else if request.RetryDeadLetter? then SaveDeadLetterRetry(t, after, DeadLetterAlertId(after.id), up)
    else SaveRow(t, after, up)
  }

  function DeadList(dead: seq<Job>, id: string, request: Request, after: Job): seq<Job> {
    if after.status.Dead? then dead + [after]
    else if request.RetryDeadLetter? then RemoveFirst(dead, id)
    else dead
  }

  /** Persists the decided record and, only once that went through, changes memory. */
  function Settle(s: State, id: string, request: Request, after: Option<Job>, up: bool)
    : (State, Result<Job, QueueError>) {
    match after
    case None => (s, Err(Refused))
    case Some(job) =>
      match Persist(s.tables, request, job, up)
      case None => (s, Err(PersistFailed))
      case Some(t) => (State(s.jobs[id := job], DeadList(s.dead, id, request, job), t), Ok(job))
  }

  /** One locked section of the queue. */
  function Perform(cfg: Config, s: State, id: string, request: Request, now: Time, up: bool)
    : (State, Result<Job, QueueError>)
  {
    if id !in s.jobs then (s, Err(NotFound))
    else Settle(s, id, request, Decide(cfg, s.jobs[id], request, now), up)
  }

  function Enqueue(s: State, job: Job, up: bool): (State, Option<QueueError>) {
    if !ValidJob(job) then (s, Some(InvalidJob)) else
    var j := if job.status.Blank? then job.(status := Pending) else job;
    if j.id in s.jobs then (s, Some(AlreadyExists)) else
    match SaveRow(s.tables, j, up)
    case None => (s, Some(PersistFailed))
    case Some(t) => (State(s.jobs[j.id := j], s.dead, t), None)
  }

  // ---- Recovery after a restart ----

  function RecoveryReason(job: Job, at: Time): ReasonCode {
    if LeaseExpired(job, at) then WorkerAbandoned else RuntimeRestart
  }

  function RecoveryText(job: Job, at: Time): string {
    if LeaseExpired(job, at) then
      "worker " + (if TrimSpace(job.workerId) == "" then "unknown-worker" else TrimSpace(job.workerId))
      + " lease abandoned during runtime restart"
    else "runtime restarted during job execution"
  }

  function Recovered(job: Job, at: Time): (r: Job)
    ensures r.id == job.id
  {
    if !job.status.Running? then job else
    var next := if job.retryCount < job.maxRetries then Retrying else Dead;
    ApplyFailure(Transition(job, next, at, RecoveryText(job, at)).value, RecoveryReason(job, at))
  }

  function PersistRecovered(t: Tables, after: Job, up: bool): Option<Tables> {
    if after.status.Dead? then SaveDeadLetter(t, after, DeadLetterAlert(after), up) else SaveRow(t, after, up)
  }

  datatype Sweep = Sweep(tables: Tables, done: bool)

  /** Recovers the listed rows in order, stopping at the first write that fails. */
  function SweepRows(t: Tables, listing: seq<Job>, at: Time, failing: set<string>): Sweep
    decreases |listing|
  {
    if listing == [] then Sweep(t, true)
    else if !listing[0].status.Running? then SweepRows(t, listing[1..], at, failing)
    else
      match PersistRecovered(t, Recovered(listing[0], at), listing[0].id !in failing)
      case None => Sweep(t, false)
      case Some(u) => SweepRows(u, listing[1..], at, failing)
  }

  function RecoveredAll(listing: seq<Job>, at: Time): (r: seq<Job>)
    ensures |r| == |listing| && forall i :: 0 <= i < |r| ==> r[i].id == listing[i].id
  {
    seq(|listing|, i requires 0 <= i < |listing| => Recovered(listing[i], at))
  }

  function ById(listing: seq<Job>): map<string, Job> {
    if listing == [] then map[] else ById(listing[..|listing| - 1])[listing[|listing| - 1].id := listing[|listing| - 1]]
  }

  function DeadIn(listing: seq<Job>): seq<Job> {
    if listing == [] then [] else
    var last := listing[|listing| - 1];
    DeadIn(listing[..|listing| - 1]) + if last.status.Dead? then [last] else []
  }

  /** The whole of Restore: memory is replaced only when every write went through. */
  function RestoreFrom(s: State, listing: seq<Job>, at: Time, failing: set<string>): (State, bool) {
    var swept := SweepRows(s.tables, listing, at, failing);
    var recovered := RecoveredAll(listing, at);
    if swept.done then (State(ById(recovered), DeadIn(recovered), swept.tables), true)
    else (s.(tables := swept.tables), false)
  }

  // ---- Ready jobs ----

  predicate IsReady(job: Job, at: Time) {
    job.status.Pending? || (job.status.Retrying? && (job.nextRunAt.None? || job.nextRunAt.value <= at))
  }

  /** Byte order of strings. */
  predicate Before(a: string, b: string) {
    b != "" && (a == "" || a[0] < b[0] || (a[0] == b[0] && Before(a[1..], b[1..])))
  }

  predicate Earlier(a: Job, b: Job) {
    a.createdAt < b.createdAt || (a.createdAt == b.createdAt && Before(a.id, b.id))
  }

  ghost predicate IsReadyList(items: seq<Job>, jobs: map<string, Job>, at: Time) {
    && (forall i, j :: 0 <= i < j < |items| ==> Earlier(items[i], items[j]))
    && (forall job :: job in items <==> exists id :: id in jobs && jobs[id] == job && IsReady(job, at))
  }
}
