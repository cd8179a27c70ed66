/** What one dispatch of a queued job does to the queue, and the sections of a failure report
    (packages/runtime-core/runtime.go, plugins/plugin-ai-chat/plugin.go). */
module DispatchSpec {
  import opened Base
  import opened Jobs
  import opened QueueSpec

  /** A clock reading together with whether the database accepts the write made then. */
  datatype Tick = Tick(now: Time, up: bool)

  function ErrorOf<T>(r: Result<T, QueueError>): Option<QueueError> {
    match r
    case Ok(_) => None
    case Err(e) => Some(e)
  }

  // ---- The report of a failed dispatch, one locked section at a time ----

  predicate OwnershipUnchanged(before: Job, after: Job) {
    && before.status == after.status && before.retryCount == after.retryCount && before.lastError == after.lastError
    && before.startedAt == after.startedAt && before.finishedAt == after.finishedAt
    && before.nextRunAt == after.nextRunAt
    && before.reasonCode == after.reasonCode && before.workerId == after.workerId
    && before.leaseAcquiredAt == after.leaseAcquiredAt && before.deadLetter == after.deadLetter
  }

  predicate StateUnchanged(before: Job, after: Job) {
    OwnershipUnchanged(before, after) && before.leaseExpiresAt == after.leaseExpiresAt
      && before.heartbeatAt == after.heartbeatAt
  }

  function DispatchReason(job: Job): ReasonCode {
    if job.retryCount < job.maxRetries then DispatchRetry else DispatchDead
  }

  /** What a look at the stored job leads to: the failure of the run with this code, or the end of the report. */
  datatype Verdict = Acts(code: ReasonCode) | Ends(error: Option<QueueError>)

  datatype FirstLook = Marks | Judges(verdict: Verdict)

  /** Only a run is failed, and not when it belongs to another claim than `original`. */
  function Judged(original: Job, stored: Job): Verdict {
    if !stored.status.Running? || (original.status.Running? && !OwnershipUnchanged(original, stored)) then Ends(None)
    else Acts(DispatchReason(stored))
  }

  /** The first look: a job that nobody touched since is claimed before it is failed. */
  function LookFirst(s: State, original: Job): FirstLook {
    if original.id !in s.jobs then Judges(Ends(Some(NotFound))) else
    var stored := s.jobs[original.id];
    if stored.status.Pending? && StateUnchanged(original, stored) then Marks else Judges(Judged(original, stored))
  }

  function LookAgain(s: State, original: Job): Verdict {
    if original.id !in s.jobs then Ends(Some(NotFound)) else Judged(original, s.jobs[original.id])
  }

  /** The last section: the run, or whatever the row has become, is failed. */
  function Act(cfg: Config, s: State, id: string, reason: string, code: ReasonCode, tick: Tick)
    : (State, Option<QueueError>) {
    var (s', r) := Perform(cfg, s, id, FailWith(reason, code), tick.now, tick.up);
    (s', ErrorOf(r))
  }

  function Carry(cfg: Config, s: State, id: string, reason: string, verdict: Verdict, tick: Tick)
    : (State, Option<QueueError>) {
    match verdict
    case Ends(error) => (s, error)
    case Acts(code) => Act(cfg, s, id, reason, code, tick)
  }

  /** The report of `reason` for the job handed out as `original`, when nothing comes between its sections. */
  function FailDispatch(cfg: Config, s: State, original: Job, reason: string, claim: Tick, fail: Tick)
    : (State, Option<QueueError>) {
    match LookFirst(s, original)
    case Judges(verdict) => Carry(cfg, s, original.id, reason, verdict, fail)
    case Marks =>
      var (s', r) := Perform(cfg, s, original.id, MarkRunning, claim.now, claim.up);
      if r.Err? then (s', Some(r.error))
      else Carry(cfg, s', original.id, reason, LookAgain(s', original), fail)
  }

  // ---- One dispatch ----

  /** How the visit of one plugin goes: whether it is reached, what its calls return, whether its answer arrives, and
      the heartbeats in between. */
  datatype Script = Script(
    reached: bool, generated: bool, replied: bool, noticed: bool, answered: bool,
    firstBeats: seq<Tick>, secondBeats: seq<Tick>, claim: Tick, close: Tick)

  /** The report of a dispatch that no plugin took. */
  datatype Report = Report(lastBeats: seq<Tick>, claim: Tick, fail: Tick)

  function Beaten(cfg: Config, s: State, id: string, beats: seq<Tick>): State
    decreases |beats|
  {
    if beats == [] then s
    else Beaten(cfg, Perform(cfg, s, id, Heartbeat, beats[0].now, beats[0].up).0, id, beats[1..])
  }

  /** The plugin's work on a run: generate, reply, and close it. The flag says whether the plugin reports an error. */
  function Worked(cfg: Config, s: State, id: string, script: Script): (State, bool) {
    var begun := Beaten(cfg, s, id, script.firstBeats);
    if !script.generated then
      var (closed, r) := Perform(cfg, begun, id, Fail("generate"), script.close.now, script.close.up);
      (closed, r.Err? || !r.value.status.Dead? || !script.noticed)
    else
      var generated := Beaten(cfg, begun, id, script.secondBeats);
      if !script.replied then
        var (closed, r) := Perform(cfg, generated, id, Fail("reply"), script.close.now, script.close.up);
        (closed, r.Err? || !r.value.status.Dead?)
      else
        var (closed, r) := Perform(cfg, generated, id, Complete, script.close.now, script.close.up);
        (closed, r.Err?)
  }

  /** The visit of a plugin, which claims the job unless it runs. */
  function Visited(cfg: Config, s: State, id: string, script: Script): (State, bool) {
    if id !in s.jobs then (s, true)
    else if s.jobs[id].status.Running? then Worked(cfg, s, id, script)
    else
      var (claimed, r) := Perform(cfg, s, id, MarkRunning, script.claim.now, script.claim.up);
      if r.Err? then (claimed, true) else Worked(cfg, claimed, id, script)
  }

  function Visits(cfg: Config, id: string): (State, Script) -> (State, bool) {
    (s, script) => Visited(cfg, s, id, script)
  }

  /** The visits in turn; an error of one plugin does not keep the job from the next. The flag says whether one of them
      delivered. */
  function Handed(visit: (State, Script) -> (State, bool), s: State, scripts: seq<Script>, delivered: bool)
    : (State, bool)
    decreases |scripts|
  {
    if scripts == [] then (s, delivered)
    else if !scripts[0].reached then Handed(visit, s, scripts[1..], delivered)
    else
      var (visited, failed) := visit(s, scripts[0]);
      Handed(visit, visited, scripts[1..], delivered || (!failed && scripts[0].answered))
  }

  /** A whole dispatch; the flag says whether it failed. */
  function Dispatched(cfg: Config, s: State, job: Job, scripts: seq<Script>, report: Report): (State, bool) {
    var (handed, delivered) := Handed(Visits(cfg, job.id), s, scripts, false);
    if delivered then (handed, false)
    else
      (FailDispatch(cfg, Beaten(cfg, handed, job.id, report.lastBeats), job, "dispatch", report.claim, report.fail).0,
       true)
  }
}
