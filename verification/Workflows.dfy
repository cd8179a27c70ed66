/** A workflow value, its one-step moves and the drive that runs it until it blocks
    (packages/runtime-core/workflow.go). */
module Workflows {
  import opened Base
  import opened Jobs

  datatype StepKind = Plain | WaitEvent | Sleep | CallJob | PersistState | Compensate | Unknown(text: string)

  /** `duration` is `value` as a sleep step reads it: zero when it does not parse. */
  datatype WorkflowStep = WorkflowStep(kind: StepKind, name: string, value: string, duration: int)

  datatype CallJobState = CallJobState(stepName: string, jobId: string)

  datatype JobResult = JobResult(stepName: string, jobId: string, status: Status, reasonCode: ReasonCode,
                                 lastError: string)

  /** A state entry: a persisted text, or what a child job left behind. */
  datatype Entry =
    | Text(text: string)
    | Child(jobId: string, status: Status, stepName: Option<string>, reasonCode: Option<ReasonCode>,
            lastError: Option<string>)

  datatype Workflow = Workflow(
    id: string,
    steps: seq<WorkflowStep>,
    currentIndex: nat,
    state: map<string, Entry>,
    waitingFor: string,
    waitingForJob: Option<CallJobState>,
    lastJobResult: Option<JobResult>,
    sleepingUntil: Option<Time>,
    completed: bool,
    compensated: bool)

  datatype WorkflowError =
    | NoCurrentStep | UnsupportedStep | MissingJobId | NotWaitingForEvent | UnexpectedEvent
    | NotSleeping | SleepNotFinished | NotWaitingForJob | NotTerminal | UnexpectedJob

  type Outcome = Result<Workflow, WorkflowError>

  function NewWorkflow(id: string, steps: seq<WorkflowStep>): Workflow {
    Workflow(id, steps, 0, map[], "", None, None, None, false, false)
  }

  predicate RequiresCompensation(status: Status) {
    status in {Cancelled, Failed, Dead}
  }

  function StateValue(r: JobResult): Entry {
    Child(r.jobId, r.status,
          if IsBlank(r.stepName) then None else Some(r.stepName),
          if r.reasonCode.NoReason? then None else Some(r.reasonCode),
          if IsBlank(r.lastError) then None else Some(r.lastError))
  }

  function CurrentStep(w: Workflow): Option<WorkflowStep> {
    if w.completed || w.currentIndex >= |w.steps| then None else Some(w.steps[w.currentIndex])
  }

  /** Moves past the current step, completing the workflow after the last one. */
  function Pass(w: Workflow): Workflow {
    w.(currentIndex := w.currentIndex + 1, completed := w.completed || w.currentIndex + 1 >= |w.steps|)
  }

  function Advance(w: Workflow, now: Time): (r: Outcome)
    ensures r.Ok? ==> r.value.steps == w.steps && r.value.id == w.id
    ensures r.Ok? ==> w.currentIndex <= r.value.currentIndex <= w.currentIndex + 1
  {
    match CurrentStep(w)
    case None => Err(NoCurrentStep)
    case Some(step) =>
      var stepped: Outcome := match step.kind
        case Plain => Ok(w.(currentIndex := w.currentIndex + 1))
        case WaitEvent => Ok(w.(waitingFor := step.value))
        case Sleep => Ok(w.(sleepingUntil := Some(now + step.duration)))
        case CallJob =>
          if IsBlank(step.value) then Err(MissingJobId)
          else Ok(w.(waitingForJob := Some(CallJobState(TrimSpace(step.name), TrimSpace(step.value))),
                     lastJobResult := None))
        case PersistState => Ok(w.(state := w.state[step.name := Text(step.value)], currentIndex := w.currentIndex + 1))
        case Compensate =>
          Ok(w.(compensated := w.compensated || w.lastJobResult.None?
                || RequiresCompensation(w.lastJobResult.value.status),
                currentIndex := w.currentIndex + 1))
        case Unknown(_) => Err(UnsupportedStep);
      match stepped
      case Err(e) => Err(e)
      case Ok(next) =>
        var finished := next.currentIndex >= |next.steps| && next.waitingFor == "" && next.waitingForJob.None?
            && next.sleepingUntil.None?;
        Ok(if finished then next.(completed := true) else next)
  }

  function ResumeWithEvent(w: Workflow, eventType: string): (r: Outcome)
    ensures r.Ok? ==> r.value.steps == w.steps && r.value.id == w.id
    ensures r.Ok? ==> w.currentIndex <= r.value.currentIndex <= w.currentIndex + 1
  {
    match CurrentStep(w)
    case None => Err(NoCurrentStep)
    case Some(step) =>
      if !step.kind.WaitEvent? || w.waitingFor == "" then Err(NotWaitingForEvent)
      else if eventType != w.waitingFor then Err(UnexpectedEvent)
      else Ok(Pass(w.(waitingFor := "")))
  }

  function ResumeAfterSleep(w: Workflow, now: Time): (r: Outcome)
    ensures r.Ok? ==> r.value.steps == w.steps && r.value.id == w.id
    ensures r.Ok? ==> w.currentIndex <= r.value.currentIndex <= w.currentIndex + 1
  {
    match CurrentStep(w)
    case None => Err(NoCurrentStep)
    case Some(step) =>
      if !step.kind.Sleep? || w.sleepingUntil.None? then Err(NotSleeping)
      else if now < w.sleepingUntil.value then Err(SleepNotFinished)
      else Ok(Pass(w.(sleepingUntil := None)))
  }

  function ResumeWithChildJob(w: Workflow, result: JobResult): (r: Outcome)
    ensures r.Ok? ==> r.value.steps == w.steps && r.value.id == w.id
    ensures r.Ok? ==> w.currentIndex <= r.value.currentIndex <= w.currentIndex + 1
  {
    match CurrentStep(w)
    case None => Err(NoCurrentStep)
    case Some(step) =>
      if !step.kind.CallJob? || w.waitingForJob.None? then Err(NotWaitingForJob) else
      var jobId := TrimSpace(result.jobId);
      if jobId == "" then Err(MissingJobId) else
      if !IsTerminal(result.status) then Err(NotTerminal) else
      var named := TrimSpace(w.waitingForJob.value.jobId);
      var expected := if named == "" then TrimSpace(step.value) else named;
      if expected == "" then Err(MissingJobId) else
      if jobId != expected then Err(UnexpectedJob) else
      var accepted := result.(
        jobId := jobId, stepName := if IsBlank(result.stepName) then TrimSpace(step.name) else result.stepName);
      Ok(Pass(w.(waitingForJob := None,
                 lastJobResult := Some(accepted),
                 state := if IsBlank(step.name) then w.state else w.state[step.name := StateValue(accepted)])))
  }

  // ---- Driving until blocked ----

  datatype RuntimeStatus = Ready | WaitingEvent | WaitingJob | Sleeping | Completed

  function StatusOf(w: Workflow): RuntimeStatus {
    if w.completed then Completed
    else if w.waitingFor != "" then WaitingEvent
    else if w.waitingForJob.Some? then WaitingJob
    else if w.sleepingUntil.Some? then Sleeping
    else Ready
  }

  datatype Turn = Halt | Fault(error: WorkflowError) | Again(next: Workflow)

  /** One round of the drive loop. */
  function TurnOf(w: Workflow, now: Time): Turn {
    if w.completed || w.waitingFor != "" || w.waitingForJob.Some?
        || (w.sleepingUntil.Some? && w.sleepingUntil.value > now) then Halt
    else
      match (if w.sleepingUntil.Some? then ResumeAfterSleep(w, now) else Advance(w, now))
      case Ok(next) => Again(next)
      case Err(e) => Fault(e)
  }

  /** Whether execution from step `i` reaches an event wait without an event name before anything else stops it. */
  predicate RunsIntoNamelessWait(steps: seq<WorkflowStep>, i: nat)
    decreases |steps| - i
  {
    i < |steps| &&
    match steps[i].kind
    case WaitEvent => steps[i].value == ""
    case Sleep => steps[i].duration <= 0 && RunsIntoNamelessWait(steps, i + 1)
    case CallJob => false
    case Unknown(_) => false
    case _ => RunsIntoNamelessWait(steps, i + 1)
  }

  predicate Stalls(w: Workflow, now: Time) {
    && TurnOf(w, now).Again?
    && RunsIntoNamelessWait(w.steps, if w.sleepingUntil.Some? then w.currentIndex + 1 else w.currentIndex)
  }

  /** Rounds the drive still has before it must stop. */
  function Rank(w: Workflow, now: Time): nat {
    if !TurnOf(w, now).Again? then 0
    else 2 * (|w.steps| - w.currentIndex) + if w.sleepingUntil.Some? then 1 else 2
  }

  lemma TurnMakesProgress(w: Workflow, now: Time)
    requires TurnOf(w, now).Again?
    ensures var next := TurnOf(w, now).next;
            && (Stalls(next, now) <==> Stalls(w, now))
            && (!Stalls(w, now) ==> Rank(next, now) < Rank(w, now))
            && next.steps == w.steps && next.currentIndex >= w.currentIndex
  {
    var next := TurnOf(w, now).next;
    var step := CurrentStep(w).value;
    var i := w.currentIndex + 1;
    assert RunsIntoNamelessWait(w.steps, i) ==> i < |w.steps| && !w.steps[i].kind.CallJob? && !w.steps[i].kind.Unknown?;
    if w.sleepingUntil.Some? {
      assert next == Pass(w.(sleepingUntil := None));
    } else if step.kind.Sleep? {
      assert next.sleepingUntil == Some(now + step.duration);
    } else if step.kind.WaitEvent? {
      assert next == w.(waitingFor := step.value);
    } else if step.kind.CallJob? {
      assert next.waitingForJob.Some?;
    } else {
      assert next.currentIndex == w.currentIndex + 1 && next.waitingFor == "" && next.sleepingUntil.None?;
    }
  }

  function Drive(w: Workflow, now: Time): Outcome
    requires !Stalls(w, now)
    decreases Rank(w, now)
  {
    match TurnOf(w, now)
    case Halt => Ok(w)
    case Fault(e) => Err(e)
    case Again(next) => TurnMakesProgress(w, now); Drive(next, now)
  }

  /** Driving a workflow whose event waits are all named, which always stops. */
  function DriveNamed(w: Workflow, now: Time): Outcome
    requires NamedWaits(w.steps)
  {
    NamedNeverStalls(w, now);
    Drive(w, now)
  }

  /** The drive loop. */
  method AdvanceUntilBlocked(w: Workflow, now: Time) returns (r: Outcome)
    requires !Stalls(w, now)
    ensures r == Drive(w, now)
  {
    var current := w;
    while true
      invariant !Stalls(current, now) && Drive(current, now) == Drive(w, now)
      decreases Rank(current, now)
    {
      if current.completed || current.waitingFor != "" || current.waitingForJob.Some? {
        return Ok(current);
      }
      if TurnOf(current, now).Again? {
        TurnMakesProgress(current, now);
      }
      if current.sleepingUntil.Some? {
        if current.sleepingUntil.value > now {
          return Ok(current);
        }
        var resumed := ResumeAfterSleep(current, now);
        if resumed.Err? {
          return resumed;
        }
        current := resumed.value;
        continue;
      }
      var next := Advance(current, now);
      if next.Err? {
        return next;
      }
      current := next.value;
    }
  }

  /** The state after `n` rounds, or the last one when the loop stopped earlier. */
  function Rounds(w: Workflow, now: Time, n: nat): Workflow
    decreases n
  {
    if n == 0 || !TurnOf(w, now).Again? then w else Rounds(TurnOf(w, now).next, now, n - 1)
  }

  /** The loop stops exactly when execution does not run into a nameless event wait. */
  lemma DriveStopsExactly(w: Workflow, now: Time)
    ensures (exists n :: !TurnOf(Rounds(w, now, n), now).Again?) <==> !Stalls(w, now)
  {
    if Stalls(w, now) {
      forall n ensures TurnOf(Rounds(w, now, n), now).Again? {
        StalledForever(w, now, n);
      }
    } else {
      var n := StopsAfter(w, now);
      assert !TurnOf(Rounds(w, now, n), now).Again?;
    }
  }

  lemma {:induction false} StalledForever(w: Workflow, now: Time, n: nat)
    requires Stalls(w, now)
    ensures Stalls(Rounds(w, now, n), now)
    decreases n
  {
    if n > 0 {
      TurnMakesProgress(w, now);
      StalledForever(TurnOf(w, now).next, now, n - 1);
    }
  }

  lemma {:induction false} StopsAfter(w: Workflow, now: Time) returns (n: nat)
    requires !Stalls(w, now)
    ensures !TurnOf(Rounds(w, now, n), now).Again?
    decreases Rank(w, now)
  {
    n := 0;
    if TurnOf(w, now).Again? {
      TurnMakesProgress(w, now);
      var m := StopsAfter(TurnOf(w, now).next, now);
      n := m + 1;
    }
  }

  /** Every event wait names its event. */
  predicate NamedWaits(steps: seq<WorkflowStep>) {
    forall i :: 0 <= i < |steps| && steps[i].kind.WaitEvent? ==> steps[i].value != ""
  }

  lemma {:induction false} NamedWaitsNeverStall(steps: seq<WorkflowStep>, i: nat)
    requires NamedWaits(steps)
    ensures !RunsIntoNamelessWait(steps, i)
    decreases |steps| - i
  {
    if i < |steps| {
      NamedWaitsNeverStall(steps, i + 1);
    }
  }

  lemma NamedNeverStalls(w: Workflow, now: Time)
    requires NamedWaits(w.steps)
    ensures !Stalls(w, now)
  {
    NamedWaitsNeverStall(w.steps, w.currentIndex);
    NamedWaitsNeverStall(w.steps, w.currentIndex + 1);
  }
}
