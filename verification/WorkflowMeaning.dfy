/** What an executed prefix of a workflow means, said without running it. */
module WorkflowMeaning {
  import opened Base
  import opened Jobs
  import opened Workflows

  /** How many child jobs the first `i` steps call. */
  function CallsBefore(steps: seq<WorkflowStep>, i: nat): nat
    requires i <= |steps|
  {
    if i == 0 then 0 else CallsBefore(steps, i - 1) + if steps[i - 1].kind.CallJob? then 1 else 0
  }

  /** The outcome a step finds: that of the last child job called before it. */
  function LastResult(steps: seq<WorkflowStep>, i: nat, results: seq<JobResult>): Option<JobResult>
    requires i <= |steps| && CallsBefore(steps, i) <= |results|
  {
    if i == 0 then None
    else if steps[i - 1].kind.CallJob? then Some(results[CallsBefore(steps, i - 1)])
    else LastResult(steps, i - 1, results)
  }

  /** The state the first `i` steps build: persisted texts and child results, later writes on top. */
  function StateAfter(steps: seq<WorkflowStep>, i: nat, results: seq<JobResult>): map<string, Entry>
    requires i <= |steps| && CallsBefore(steps, i) <= |results|
  {
    if i == 0 then map[] else
    var step, before := steps[i - 1], StateAfter(steps, i - 1, results);
    match step.kind
    case PersistState => before[step.name := Text(step.value)]
    case CallJob => if IsBlank(step.name) then before
        else before[step.name := StateValue(results[CallsBefore(steps, i - 1)])]
    case _ => before
  }

  predicate Unredeemed(last: Option<JobResult>) {
    last.None? || RequiresCompensation(last.value.status)
  }

  /** Some compensate step among the first `i` found no child outcome, or a failed one. */
  ghost predicate CompensatedBy(steps: seq<WorkflowStep>, i: nat, results: seq<JobResult>)
    requires i <= |steps| && CallsBefore(steps, i) <= |results|
  {
    exists j :: 0 <= j < i && CompensatesAt(steps, j, results)
  }

  predicate CompensatesAt(steps: seq<WorkflowStep>, j: nat, results: seq<JobResult>)
    requires j < |steps|
  {
    steps[j].kind.Compensate? && CallsBefore(steps, j) <= |results| && Unredeemed(LastResult(steps, j, results))
  }

  /** Each accepted outcome is terminal and belongs to the call it answered. */
  ghost predicate Answers(steps: seq<WorkflowStep>, i: nat, results: seq<JobResult>)
    requires i <= |steps| && CallsBefore(steps, i) <= |results|
  {
    forall j :: 0 <= j < i && steps[j].kind.CallJob? ==> AnswersAt(steps, j, results)
  }

  predicate AnswersAt(steps: seq<WorkflowStep>, j: nat, results: seq<JobResult>)
    requires j < |steps|
  {
    CallsBefore(steps, j) < |results| &&
    var r := results[CallsBefore(steps, j)];
    IsTerminal(r.status) && r.jobId == TrimSpace(steps[j].value) && r.jobId != ""
  }

  function AwaitedCall(step: WorkflowStep): CallJobState {
    CallJobState(TrimSpace(step.name), TrimSpace(step.value))
  }

  /** The wait that a workflow is in, if any, is the one its current step asks for. */
  predicate Posture(w: Workflow) {
    && (w.completed <==> w.currentIndex == |w.steps|)
    && (w.waitingFor != "" ==>
        w.currentIndex < |w.steps| && w.steps[w.currentIndex].kind.WaitEvent?
          && w.waitingFor == w.steps[w.currentIndex].value)
    && (w.sleepingUntil.Some? ==> w.currentIndex < |w.steps| && w.steps[w.currentIndex].kind.Sleep?)
    && (w.waitingForJob.Some? ==>
          && w.currentIndex < |w.steps| && w.steps[w.currentIndex].kind.CallJob?
          && w.waitingForJob.value == AwaitedCall(w.steps[w.currentIndex]) && w.waitingForJob.value.jobId != "")
  }

  /** `w` is what remains of its own steps once `results` were the outcomes of the child jobs so far. */
  ghost predicate Ran(w: Workflow, results: seq<JobResult>) {
    && w.steps != [] && NamedWaits(w.steps) && w.currentIndex <= |w.steps|
    && |results| == CallsBefore(w.steps, w.currentIndex)
    && w.state == StateAfter(w.steps, w.currentIndex, results)
    && (w.compensated <==> CompensatedBy(w.steps, w.currentIndex, results))
    && w.lastJobResult == (if w.waitingForJob.Some? then None else LastResult(w.steps, w.currentIndex, results))
    && Answers(w.steps, w.currentIndex, results)
    && Posture(w)
  }

  lemma {:induction false} CallsGrow(steps: seq<WorkflowStep>, i: nat, j: nat)
    requires i <= j <= |steps|
    ensures CallsBefore(steps, i) <= CallsBefore(steps, j)
    ensures i < j && steps[i].kind.CallJob? ==> CallsBefore(steps, i) < CallsBefore(steps, j)
  {
    if i < j {
      CallsGrow(steps, i, j - 1);
    }
  }

  /** A further outcome does not change what the steps before it mean. */
  lemma {:induction false} LaterResultsDoNotMatter(steps: seq<WorkflowStep>, i: nat, results: seq<JobResult>,
                                                   r: JobResult)
    requires i <= |steps| && CallsBefore(steps, i) <= |results|
    ensures StateAfter(steps, i, results + [r]) == StateAfter(steps, i, results)
    ensures LastResult(steps, i, results + [r]) == LastResult(steps, i, results)
  {
    if i > 0 {
      LaterResultsDoNotMatter(steps, i - 1, results, r);
    }
  }

  lemma NewWorkflowRan(id: string, steps: seq<WorkflowStep>)
    requires steps != [] && NamedWaits(steps)
    ensures Ran(NewWorkflow(id, steps), [])
  {
  }

  /** One step on: the meaning of the longer prefix is the meaning of the shorter one plus that step. */
  lemma CompensatedOneMore(steps: seq<WorkflowStep>, i: nat, results: seq<JobResult>)
    requires i < |steps| && CallsBefore(steps, i + 1) <= |results|
    ensures CallsBefore(steps, i) <= |results|
    ensures CompensatedBy(steps, i + 1, results) <==>
            CompensatedBy(steps, i, results) || CompensatesAt(steps, i, results)
  {
    if CompensatedBy(steps, i, results) {
      var j :| 0 <= j < i && CompensatesAt(steps, j, results);
    }
  }

  lemma AdvanceRan(w: Workflow, results: seq<JobResult>, now: Time)
    requires Ran(w, results) && StatusOf(w).Ready? && Advance(w, now).Ok?
    ensures Ran(Advance(w, now).value, results)
  {
    var i := w.currentIndex;
    var step := w.steps[i];
    if Advance(w, now).value.currentIndex == i + 1 {
      CompensatedOneMore(w.steps, i, results);
    }
  }

  lemma PassRan(w: Workflow, results: seq<JobResult>)
    requires Ran(w, results) && w.currentIndex < |w.steps| && w.waitingForJob.None?
    requires w.steps[w.currentIndex].kind in {WaitEvent, Sleep}
    ensures Ran(Pass(w.(waitingFor := "", sleepingUntil := None)), results)
  {
    CompensatedOneMore(w.steps, w.currentIndex, results);
  }

  /** The record kept of an accepted delivery. */
  function Accepted(w: Workflow, result: JobResult): JobResult
    requires CurrentStep(w).Some?
  {
    result.(jobId := TrimSpace(result.jobId),
            stepName := if IsBlank(result.stepName) then TrimSpace(CurrentStep(w).value.name) else result.stepName)
  }

  /** A further outcome leaves the compensations and answers of the steps before it as they were. */
  lemma LaterResultsKeepBefore(steps: seq<WorkflowStep>, i: nat, results: seq<JobResult>, r: JobResult)
    requires i <= |steps| && CallsBefore(steps, i) == |results|
    ensures CompensatedBy(steps, i, results + [r]) <==> CompensatedBy(steps, i, results)
    ensures Answers(steps, i, results) ==> Answers(steps, i, results + [r])
  {
    forall j | 0 <= j < i
      ensures CompensatesAt(steps, j, results + [r]) == CompensatesAt(steps, j, results)
      ensures steps[j].kind.CallJob? && AnswersAt(steps, j, results) ==> AnswersAt(steps, j, results + [r])
    {
      CallsGrow(steps, j, i);
      LaterResultsDoNotMatter(steps, j, results, r);
    }
  }

  /** The workflow after its current call was answered by `r`. */
  function AfterAnswer(w: Workflow, r: JobResult): Workflow
    requires w.currentIndex < |w.steps|
  {
    var name := w.steps[w.currentIndex].name;
    Pass(w.(waitingForJob := None, lastJobResult := Some(r),
            state := if IsBlank(name) then w.state else w.state[name := StateValue(r)]))
  }

  lemma AcceptanceIs(w: Workflow, results: seq<JobResult>, result: JobResult)
    requires Ran(w, results) && ResumeWithChildJob(w, result).Ok?
    ensures w.waitingForJob.Some? && w.currentIndex < |w.steps| && var r := Accepted(w, result);
            && ResumeWithChildJob(w, result).value == AfterAnswer(w, r)
            && IsTerminal(r.status) && r.jobId == TrimSpace(w.steps[w.currentIndex].value) != ""
  {
    TrimSpaceFixes(w.steps[w.currentIndex].value);
    TrimSpaceFixes(TrimSpace(w.steps[w.currentIndex].value));
  }

  /** One call more, and its outcome. */
  lemma OneMoreCall(steps: seq<WorkflowStep>, i: nat, results: seq<JobResult>, r: JobResult)
    requires i < |steps| && steps[i].kind.CallJob? && CallsBefore(steps, i) == |results|
    requires Answers(steps, i, results) && IsTerminal(r.status) && r.jobId == TrimSpace(steps[i].value) != ""
    ensures CallsBefore(steps, i + 1) == |results| + 1
    ensures StateAfter(steps, i + 1, results + [r])
         == (if IsBlank(steps[i].name) then StateAfter(steps, i, results)
             else StateAfter(steps, i, results)[steps[i].name := StateValue(r)])
    ensures LastResult(steps, i + 1, results + [r]) == Some(r)
    ensures CompensatedBy(steps, i + 1, results + [r]) <==> CompensatedBy(steps, i, results)
    ensures Answers(steps, i + 1, results + [r])
  {
    LaterResultsDoNotMatter(steps, i, results, r);
    LaterResultsKeepBefore(steps, i, results, r);
    CompensatedOneMore(steps, i, results + [r]);
    assert AnswersAt(steps, i, results + [r]);
  }

  lemma AfterAnswerRan(w: Workflow, results: seq<JobResult>, r: JobResult)
    requires Ran(w, results) && w.waitingForJob.Some? && IsTerminal(r.status)
    requires r.jobId == TrimSpace(w.steps[w.currentIndex].value)
    ensures Ran(AfterAnswer(w, r), results + [r])
  {
    OneMoreCall(w.steps, w.currentIndex, results, r);
  }

  /** Accepting an outcome executes the call that waited for it. */
  lemma ChildRan(w: Workflow, results: seq<JobResult>, result: JobResult)
    requires Ran(w, results) && ResumeWithChildJob(w, result).Ok?
    ensures Ran(ResumeWithChildJob(w, result).value, results + [Accepted(w, result)])
  {
    AcceptanceIs(w, results, result);
    AfterAnswerRan(w, results, Accepted(w, result));
  }

  /** A drive keeps the meaning and ends completed or blocked on exactly what the current step waits for. */
  lemma {:induction false} DriveRan(w: Workflow, results: seq<JobResult>, now: Time)
    requires Ran(w, results) && !Stalls(w, now) && Drive(w, now).Ok?
    ensures var v := Drive(w, now).value;
            && Ran(v, results) && TurnOf(v, now).Halt?
            && v.steps == w.steps && v.id == w.id && v.currentIndex >= w.currentIndex
    decreases Rank(w, now)
  {
    if TurnOf(w, now).Again? {
      var next := TurnOf(w, now).next;
      TurnMakesProgress(w, now);
      if w.sleepingUntil.Some? {
        PassRan(w, results);
        assert next == Pass(w.(waitingFor := "", sleepingUntil := None));
      } else {
        AdvanceRan(w, results, now);
      }
      DriveRan(next, results, now);
    }
  }

  predicate AtKind(w: Workflow, kind: StepKind) {
    CurrentStep(w).Some? && CurrentStep(w).value.kind == kind
  }

  /** The reasons a drive can end for, each tied to the current step; never `Ready`. */
  lemma DrivenIsBlocked(w: Workflow, results: seq<JobResult>, now: Time)
    requires Ran(w, results) && NamedWaits(w.steps) && DriveNamed(w, now).Ok?
    ensures var v := DriveNamed(w, now).value;
            match StatusOf(v)
            case Completed => v.currentIndex == |v.steps| && v.waitingFor == "" && v.waitingForJob.None?
                && v.sleepingUntil.None?
            case WaitingEvent => AtKind(v, WaitEvent) && v.waitingForJob.None? && v.sleepingUntil.None?
            case WaitingJob => AtKind(v, CallJob) && v.waitingFor == "" && v.sleepingUntil.None?
            case Sleeping => AtKind(v, Sleep) && v.sleepingUntil.value > now && v.waitingFor == ""
                && v.waitingForJob.None?
            case Ready => false
  {
    NamedNeverStalls(w, now);
    DriveRan(w, results, now);
  }
}
