/** What a resting workflow holds, field by field, said of its steps and of the outcomes of its child jobs. */
module RestingWorkflows {
  import opened Base
  import opened Jobs
  import opened Workflows
  import opened WorkflowMeaning
  import opened WorkflowTimes

  /** The outcome that a step finds is the latest one accepted before it. */
  lemma {:induction false} LatestOutcome(steps: seq<WorkflowStep>, i: nat, results: seq<JobResult>)
    requires i <= |steps| && CallsBefore(steps, i) <= |results|
    ensures var calls := CallsBefore(steps, i);
            LastResult(steps, i, results) == if calls == 0 then None else Some(results[calls - 1])
  {
    if i > 0 && !steps[i - 1].kind.CallJob? {
      LatestOutcome(steps, i - 1, results);
    }
  }

  /** A compensate step that no child job came before, or the last of whose child jobs ended in another way than
      Done. */
  ghost predicate HadToCompensate(steps: seq<WorkflowStep>, j: nat, results: seq<JobResult>)
    requires j < |steps|
  {
    && steps[j].kind.Compensate?
    && var calls := CallsBefore(steps, j);
    calls == 0 || (calls <= |results| && !results[calls - 1].status.Done?)
  }

  /** Every accepted outcome has a terminal status. */
  lemma OutcomesAreTerminal(steps: seq<WorkflowStep>, i: nat, results: seq<JobResult>, k: nat)
    requires i <= |steps| && CallsBefore(steps, i) <= |results| && Answers(steps, i, results)
    requires k < CallsBefore(steps, i)
    ensures results[k].status in {Done, Cancelled, Failed, Dead}
  {
    var j := AnsweredStep(steps, i, k);
    assert AnswersAt(steps, j, results);
  }

  /** The step that outcome number `k` answered. */
  lemma {:induction false} AnsweredStep(steps: seq<WorkflowStep>, i: nat, k: nat) returns (j: nat)
    requires i <= |steps| && k < CallsBefore(steps, i)
    ensures j < i && steps[j].kind.CallJob? && CallsBefore(steps, j) == k
  {
    if CallsBefore(steps, i - 1) == k {
      j := i - 1;
    } else {
      j := AnsweredStep(steps, i - 1, k);
    }
  }

  lemma CompensatesExactly(steps: seq<WorkflowStep>, i: nat, results: seq<JobResult>, j: nat)
    requires j < i <= |steps| && CallsBefore(steps, i) <= |results| && Answers(steps, i, results)
    ensures CompensatesAt(steps, j, results) <==> HadToCompensate(steps, j, results)
  {
    CallsGrow(steps, j, i);
    LatestOutcome(steps, j, results);
    if CallsBefore(steps, j) > 0 {
      OutcomesAreTerminal(steps, i, results, CallsBefore(steps, j) - 1);
    }
  }

  /** A workflow is compensated exactly when a compensate step that it passed had to compensate. */
  lemma CompensatedExactly(steps: seq<WorkflowStep>, i: nat, results: seq<JobResult>)
    requires i <= |steps| && CallsBefore(steps, i) <= |results| && Answers(steps, i, results)
    ensures CompensatedBy(steps, i, results) <==> exists j :: 0 <= j < i && HadToCompensate(steps, j, results)
  {
    if CompensatedBy(steps, i, results) {
      var j :| 0 <= j < i && CompensatesAt(steps, j, results);
      CompensatesExactly(steps, i, results, j);
    }
    if j :| 0 <= j < i && HadToCompensate(steps, j, results) {
      CompensatesExactly(steps, i, results, j);
    }
  }

  /** A persist step writes its name, a child call writes its name unless that is blank. */
  predicate Writes(step: WorkflowStep, key: string) {
    step.name == key && (step.kind.PersistState? || (step.kind.CallJob? && !IsBlank(key)))
  }

  /** Step `j` is the last one before `i` to write the key. */
  ghost predicate LastWriter(steps: seq<WorkflowStep>, i: nat, j: nat, key: string)
    requires i <= |steps|
  {
    j < i && Writes(steps[j], key) && forall m :: j < m < i ==> !Writes(steps[m], key)
  }

  /** What a child job leaves in the state: blank names and texts and the empty reason are left out. */
  predicate Records(e: Entry, r: JobResult) {
    && e.Child? && e.jobId == r.jobId && e.status == r.status
    && e.stepName == (if IsBlank(r.stepName) then None else Some(r.stepName))
    && e.reasonCode == (if r.reasonCode.NoReason? then None else Some(r.reasonCode))
    && e.lastError == (if IsBlank(r.lastError) then None else Some(r.lastError))
  }

  predicate Wrote(steps: seq<WorkflowStep>, j: nat, results: seq<JobResult>, e: Entry)
    requires j < |steps|
  {
    if steps[j].kind.PersistState? then e == Text(steps[j].value)
    else CallsBefore(steps, j) < |results| && Records(e, results[CallsBefore(steps, j)])
  }

  /** The state has a key exactly when a passed step writes it, and holds what the last such step wrote. */
  lemma {:induction false} StateExactly(steps: seq<WorkflowStep>, i: nat, results: seq<JobResult>, key: string)
    requires i <= |steps| && CallsBefore(steps, i) <= |results|
    ensures var state := StateAfter(steps, i, results);
            && (key in state <==> exists j :: 0 <= j < i && Writes(steps[j], key))
            && forall j :: 0 <= j < i && LastWriter(steps, i, j, key) ==> Wrote(steps, j, results, state[key])
  {
    if i > 0 {
      StateExactly(steps, i - 1, results, key);
      assert Writes(steps[i - 1], key) ==> key in StateAfter(steps, i, results);
      forall j | 0 <= j < i && LastWriter(steps, i, j, key)
        ensures Wrote(steps, j, results, StateAfter(steps, i, results)[key]) {
        if j < i - 1 {
          assert LastWriter(steps, i - 1, j, key);
          assert !Writes(steps[i - 1], key);
        }
      }
    }
  }

  /** A resting workflow at step `i` that was fed `log`, in every field. */
  ghost predicate HoldsExactly(v: Workflow, log: Log)
    requires v.currentIndex <= |v.steps| && |log.passed| == v.currentIndex
    requires CallsBefore(v.steps, v.currentIndex) <= |log.results|
  {
    var i := v.currentIndex;
    var ended := i == |v.steps|;
    var awaits := !ended && v.steps[i].kind.CallJob?;
    && v.completed == ended
    && v.waitingFor == (if !ended && v.steps[i].kind.WaitEvent? then v.steps[i].value else "")
    && v.waitingForJob == (if awaits then Some(CallJobState(TrimSpace(v.steps[i].name), TrimSpace(v.steps[i].value)))
                           else None)
    && v.sleepingUntil == (if !ended && v.steps[i].kind.Sleep?
                           then Some((if i == 0 then log.start else log.passed[i - 1]) + v.steps[i].duration)
                           else None)
    && v.lastJobResult == (if awaits || log.results == [] then None else Some(log.results[|log.results| - 1]))
    && (v.compensated <==> exists j :: 0 <= j < i && HadToCompensate(v.steps, j, log.results))
    && (forall key :: key in v.state <==> exists j :: 0 <= j < i && Writes(v.steps[j], key))
    && (forall key, j :: 0 <= j < i && LastWriter(v.steps, i, j, key) ==>
                         key in v.state && Wrote(v.steps, j, log.results, v.state[key]))
  }

  lemma RestingHolds(v: Workflow, log: Log)
    requires Ran(v, log.results) && Timed(v, log) && !StatusOf(v).Ready?
    ensures HoldsExactly(v, log)
  {
    var i := v.currentIndex;
    LatestOutcome(v.steps, i, log.results);
    CompensatedExactly(v.steps, i, log.results);
    forall key
      ensures key in v.state <==> exists j :: 0 <= j < i && Writes(v.steps[j], key)
      ensures forall j :: 0 <= j < i && LastWriter(v.steps, i, j, key) ==>
                key in v.state && Wrote(v.steps, j, log.results, v.state[key])
    {
      StateExactly(v.steps, i, log.results, key);
    }
  }

  // ---- One move of any value ----

  predicate Over(w: Workflow) {
    w.completed || w.currentIndex >= |w.steps|
  }

  /** Behind the current step, and complete behind the last one. */
  predicate Passed(w: Workflow, v: Workflow) {
    v == w.(currentIndex := w.currentIndex + 1, completed := w.completed || w.currentIndex + 1 >= |w.steps|)
  }

  /** When a workflow of any value, also one that no drive leaves, takes an event or the end of its sleep. */
  lemma ResumesExactly(w: Workflow, eventType: string, now: Time)
    ensures match ResumeWithEvent(w, eventType)
            case Ok(v) =>
              && !Over(w) && w.steps[w.currentIndex].kind == WaitEvent && eventType == w.waitingFor != ""
              && Passed(w.(waitingFor := ""), v)
            case Err(e) =>
              if Over(w) then e == NoCurrentStep
              else if w.steps[w.currentIndex].kind != WaitEvent || w.waitingFor == "" then e == NotWaitingForEvent
              else eventType != w.waitingFor && e == UnexpectedEvent
    ensures match ResumeAfterSleep(w, now)
            case Ok(v) =>
              && !Over(w) && w.steps[w.currentIndex].kind == Sleep && w.sleepingUntil.Some?
              && w.sleepingUntil.value <= now && Passed(w.(sleepingUntil := None), v)
            case Err(e) =>
              if Over(w) then e == NoCurrentStep
              else if w.steps[w.currentIndex].kind != Sleep || w.sleepingUntil.None? then e == NotSleeping
              else now < w.sleepingUntil.value && e == SleepNotFinished
  {
  }

  /** The job whose outcome the current step waits for: the one that was called, or, should that have no id, the one
      that the step names. */
  function Expected(w: Workflow): string
    requires w.currentIndex < |w.steps| && w.waitingForJob.Some?
  {
    if IsBlank(w.waitingForJob.value.jobId) then TrimSpace(w.steps[w.currentIndex].value)
    else TrimSpace(w.waitingForJob.value.jobId)
  }

  /** When a workflow of any value takes an outcome, and what it keeps of it. */
  lemma HearsExactly(w: Workflow, result: JobResult)
    ensures match ResumeWithChildJob(w, result)
            case Ok(v) =>
              && !Over(w) && var step := w.steps[w.currentIndex];
              && step.kind == CallJob && w.waitingForJob.Some? && result.status in {Done, Cancelled, Failed, Dead}
              && TrimSpace(result.jobId) == Expected(w) != "" && v.lastJobResult.Some?
              && v.lastJobResult.value
                 == result.(jobId := TrimSpace(result.jobId),
                            stepName := if IsBlank(result.stepName) then TrimSpace(step.name) else result.stepName)
              && (!IsBlank(step.name) ==>
                    && step.name in v.state && v.state == w.state[step.name := v.state[step.name]]
                    && Records(v.state[step.name], v.lastJobResult.value))
              && (IsBlank(step.name) ==> v.state == w.state)
              && Passed(w.(waitingForJob := None, lastJobResult := v.lastJobResult, state := v.state), v)
            case Err(e) =>
              if Over(w) then e == NoCurrentStep
              else if w.steps[w.currentIndex].kind != CallJob || w.waitingForJob.None? then e == NotWaitingForJob
              else if IsBlank(result.jobId) then e == MissingJobId
              else if result.status !in {Done, Cancelled, Failed, Dead} then e == NotTerminal
              else if Expected(w) == "" then e == MissingJobId
              else TrimSpace(result.jobId) != Expected(w) && e == UnexpectedJob
  {
  }

  // ---- How far a drive gets ----

  /** A step that execution passes at once. */
  predicate Instant(step: WorkflowStep) {
    match step.kind
    case Plain => true
    case PersistState => true
    case Compensate => true
    case Sleep => step.duration <= 0
    case _ => false
  }

  /** A step that no execution survives. */
  predicate Broken(step: WorkflowStep) {
    step.kind.Unknown? || (step.kind.CallJob? && IsBlank(step.value))
  }

  /** Execution from step `i` runs into the broken step `j`. */
  ghost predicate BreaksAt(steps: seq<WorkflowStep>, i: nat, j: nat) {
    i <= j < |steps| && Broken(steps[j]) && forall m :: i <= m < j ==> Instant(steps[m])
  }

  ghost predicate Breaks(steps: seq<WorkflowStep>, i: nat) {
    exists j :: BreaksAt(steps, i, j)
  }

  /** Execution from step `i` gets to step `k`, where it ends or has to wait. */
  ghost predicate GoesTo(steps: seq<WorkflowStep>, i: nat, k: nat) {
    && i <= k <= |steps| && (forall m :: i <= m < k ==> Instant(steps[m]))
    && (k < |steps| ==> !Instant(steps[k]) && !Broken(steps[k]))
  }

  /** Where execution goes on: behind a sleep that is over. */
  function ResumesAt(w: Workflow): nat {
    if w.sleepingUntil.Some? then w.currentIndex + 1 else w.currentIndex
  }

  lemma InstantStep(steps: seq<WorkflowStep>, i: nat)
    requires i < |steps| && Instant(steps[i])
    ensures Breaks(steps, i) <==> Breaks(steps, i + 1)
    ensures forall k :: GoesTo(steps, i + 1, k) ==> GoesTo(steps, i, k)
    ensures forall j :: BreaksAt(steps, i + 1, j) ==> BreaksAt(steps, i, j)
  {
    if Breaks(steps, i) {
      var j: nat :| BreaksAt(steps, i, j);
      assert BreaksAt(steps, i + 1, j);
    }
    if Breaks(steps, i + 1) {
      var j: nat :| BreaksAt(steps, i + 1, j);
      assert BreaksAt(steps, i, j);
    }
  }

  lemma StopsHere(steps: seq<WorkflowStep>, i: nat)
    requires i < |steps| && !Instant(steps[i])
    ensures Breaks(steps, i) <==> Broken(steps[i])
    ensures !Broken(steps[i]) ==> GoesTo(steps, i, i)
    ensures Broken(steps[i]) ==> BreaksAt(steps, i, i)
  {
    if Broken(steps[i]) {
      assert BreaksAt(steps, i, i);
    }
  }

  /** The round before the drive ends. */
  lemma HaltsNext(w: Workflow, now: Time)
    requires Posture(w) && NamedWaits(w.steps) && TurnOf(w, now).Again? && TurnOf(TurnOf(w, now).next, now).Halt?
    ensures GoesTo(w.steps, ResumesAt(w), TurnOf(w, now).next.currentIndex) && !Breaks(w.steps, ResumesAt(w))
  {
    var i := ResumesAt(w);
    if i < |w.steps| && Instant(w.steps[i]) {
      InstantStep(w.steps, i);
    } else if i < |w.steps| {
      StopsHere(w.steps, i);
    }
  }

  /** The result of an execution from step `i`: it passes the steps that can be passed at once and ends before the first
      other one, or it runs into a broken step, and says why that one is broken. */
  ghost predicate EndsAs(steps: seq<WorkflowStep>, i: nat, r: Outcome) {
    match r
    case Ok(v) => GoesTo(steps, i, v.currentIndex) && !Breaks(steps, i)
    case Err(e) => exists j: nat ::
      BreaksAt(steps, i, j) && e == if steps[j].kind.Unknown? then UnsupportedStep else MissingJobId
  }

  lemma EndsOn(steps: seq<WorkflowStep>, i: nat, r: Outcome)
    requires i < |steps| && Instant(steps[i]) && EndsAs(steps, i + 1, r)
    ensures EndsAs(steps, i, r)
  {
    InstantStep(steps, i);
  }

  lemma FaultEnds(w: Workflow, now: Time)
    requires Posture(w) && NamedWaits(w.steps) && TurnOf(w, now).Fault?
    requires w.currentIndex <= |w.steps| && (w.sleepingUntil.Some? ==> w.sleepingUntil.value <= now)
    ensures EndsAs(w.steps, ResumesAt(w), Err(TurnOf(w, now).error))
  {
    StopsHere(w.steps, ResumesAt(w));
  }

  /** A round after which the drive goes on. */
  lemma GoesOnNext(w: Workflow, now: Time)
    requires Posture(w) && TurnOf(w, now).Again? && !TurnOf(TurnOf(w, now).next, now).Halt?
    ensures var (next, i) := (TurnOf(w, now).next, ResumesAt(w));
            && next.waitingFor == "" && next.waitingForJob.None?
            && (next.sleepingUntil.Some? ==> next.sleepingUntil.value <= now)
            && (ResumesAt(next) == i || (i < |w.steps| && Instant(w.steps[i]) && ResumesAt(next) == i + 1))
  {
  }

  /** A drive that is not blocked fails exactly when it runs into a broken step, and ends as said. */
  lemma {:induction false} DriveExactly(w: Workflow, now: Time)
    requires Posture(w) && !Stalls(w, now) && NamedWaits(w.steps) && w.waitingFor == "" && w.waitingForJob.None?
    requires w.currentIndex <= |w.steps| && (w.sleepingUntil.Some? ==> w.sleepingUntil.value <= now)
    ensures EndsAs(w.steps, ResumesAt(w), Drive(w, now))
    decreases Rank(w, now)
  {
    var i := ResumesAt(w);
    match TurnOf(w, now)
    case Halt =>
    case Fault(_) => FaultEnds(w, now);
    case Again(next) =>
      TurnMakesProgress(w, now);
      TurnKeepsPosture(w, now);
      if TurnOf(next, now).Halt? {
        HaltsNext(w, now);
      } else {
        GoesOnNext(w, now);
        DriveExactly(next, now);
        if ResumesAt(next) == i + 1 {
          EndsOn(w.steps, i, Drive(next, now));
        }
      }
  }
}
