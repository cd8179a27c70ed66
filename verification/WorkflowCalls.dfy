/** When a trigger, a delivery or a recovery pass succeeds, what it says when it does not, and the row it writes, all in
    terms of the row it finds. */
module WorkflowCalls {
  import opened Base
  import opened Jobs
  import opened Workflows
  import opened WorkflowMeaning
  import opened WorkflowTimes
  import opened RestingWorkflows
  import opened WorkflowRuntimes
  import opened WorkflowRuns
  import opened WorkflowLaws

  /** The reply of a call that executes from step `i`: how far it gets, or the broken step it runs into. */
  ghost predicate Executes(steps: seq<WorkflowStep>, i: nat, r: Reply) {
    match r
    case Ok(t) =>
      && t.instance.workflow.steps == steps && GoesTo(steps, i, t.instance.workflow.currentIndex)
      && !Breaks(steps, i)
    case Err(e) => exists j: nat ::
      BreaksAt(steps, i, j) && e == Rejected(if steps[j].kind.Unknown? then UnsupportedStep
                                             else WorkflowError.MissingJobId)
  }

  /** The bookkeeping of a row that a call writes. */
  predicate Stamped(row: Instance, id: string, plugin: string, eventId: string, eventType: string, created: Time,
                    updated: Time) {
    && row.workflowId == row.workflow.id == id && row.pluginId == plugin
    && row.lastEventId == eventId && row.lastEventType == eventType
    && row.createdAt == created && row.updatedAt == updated
  }

  lemma DriveEnds(w: Workflow, now: Time)
    requires Posture(w) && NamedWaits(w.steps) && w.waitingFor == "" && w.waitingForJob.None?
    requires w.currentIndex <= |w.steps| && (w.sleepingUntil.Some? ==> w.sleepingUntil.value <= now)
    ensures EndsAs(w.steps, ResumesAt(w), DriveNamed(w, now))
  {
    NamedNeverStalls(w, now);
    DriveExactly(w, now);
  }

  lemma DriveEndsNamed(w: Workflow, now: Time)
    requires Posture(w) && NamedWaits(w.steps) && w.waitingFor == "" && w.waitingForJob.None?
    requires w.currentIndex <= |w.steps| && (w.sleepingUntil.Some? ==> w.sleepingUntil.value <= now)
    ensures EndsAs(w.steps, ResumesAt(w), DriveNamed(w, now))
    ensures DriveNamed(w, now).Ok? ==> DriveNamed(w, now).value.id == w.id && DriveNamed(w, now).value.steps == w.steps
  {
    DriveEnds(w, now);
    NamedNeverStalls(w, now);
    if DriveNamed(w, now).Ok? {
      DriveKeepsName(w, now);
    }
  }

  lemma ContinueExecutes(current: Instance, resumed: Workflow, eventId: string, eventType: string, now: Time)
    requires Posture(resumed) && NamedWaits(resumed.steps) && StatusOf(resumed) in {Ready, Completed}
    requires resumed.currentIndex <= |resumed.steps|
    requires resumed.waitingFor == "" && resumed.waitingForJob.None? && resumed.sleepingUntil.None?
    requires resumed.id == current.workflowId
    ensures var r := Continue(current, resumed, eventId, eventType, now);
            && Executes(resumed.steps, resumed.currentIndex, r)
            && (r.Ok? ==> !r.value.started && Stamped(r.value.instance, current.workflowId, current.pluginId, eventId,
                                                      eventType,
                                                      if current.createdAt == ZERO_TIME then now else current.createdAt,
                                                      now))
  {
    DriveEndsNamed(resumed, now);
  }

  // ---- Triggers ----

  /** What a trigger makes of an open run: refused while a child job is out, for another event than the awaited one and
      before the sleep is over; otherwise the run goes on behind its wait. */
  ghost predicate Wakes(row: Instance, trigger: Trigger, now: Time, r: Reply)
    requires row.workflow.currentIndex < |row.workflow.steps|
  {
    var w := row.workflow;
    var step := w.steps[w.currentIndex];
    if step.kind.CallJob? then r == Err(WaitingForChild)
    else if step.kind.WaitEvent? && TrimSpace(trigger.eventType) != step.value then r == Err(Rejected(UnexpectedEvent))
    else if w.sleepingUntil.Some? && now < w.sleepingUntil.value then r == Err(Rejected(SleepNotFinished))
    else
      && Executes(w.steps, w.currentIndex + 1, r)
      && (r.Ok? ==>
            && !r.value.started
            && Stamped(r.value.instance, row.workflowId, row.pluginId, TrimSpace(trigger.eventId),
                       TrimSpace(trigger.eventType), row.createdAt, now))
  }

  /** What a trigger makes of no run, or of one that is over: a new one from the first step on. */
  ghost predicate Starts(trigger: Trigger, steps: seq<WorkflowStep>, now: Time, r: Reply) {
    if steps == [] then r == Err(NoSteps)
    else
      && Executes(steps, 0, r)
      && (r.Ok? ==>
            && r.value.started
            && Stamped(r.value.instance, TrimSpace(trigger.workflowId), TrimSpace(trigger.pluginId),
                       TrimSpace(trigger.eventId), TrimSpace(trigger.eventType), now, now))
  }

  /** Exactly the awaited event, or the end of the sleep, moves a resting workflow past its wait. */
  lemma WakesExactly(w: Workflow, log: Log, eventType: string, now: Time)
    requires Ran(w, log.results) && Timed(w, log) && !StatusOf(w).Ready? && !w.completed
    ensures w.currentIndex < |w.steps|
    ensures var (step, r) := (w.steps[w.currentIndex], Wake(w, eventType, now));
            if step.kind.CallJob? then r == Err(WaitingForChild)
            else if step.kind.WaitEvent? && eventType != step.value then r == Err(Rejected(UnexpectedEvent))
            else if w.sleepingUntil.Some? && now < w.sleepingUntil.value then r == Err(Rejected(SleepNotFinished))
            else r == Ok(Pass(w.(waitingFor := "", sleepingUntil := None)))
  {
  }

  lemma PassedIsReady(w: Workflow)
    requires Posture(w) && w.currentIndex < |w.steps| && w.waitingForJob.None?
    ensures var v := Pass(w.(waitingFor := "", sleepingUntil := None));
            && Posture(v) && StatusOf(v) in {Ready, Completed}
            && v.waitingFor == "" && v.waitingForJob.None? && v.sleepingUntil.None?
            && v.currentIndex == w.currentIndex + 1 && v.steps == w.steps && v.id == w.id
  {
  }

  lemma WakeComputes(row: Instance, trigger: Trigger, initial: Workflow, log: Log, now: Time)
    requires RowSound(row.workflowId, row, log) && !row.workflow.completed && NamedWaits(initial.steps)
    requires row.pluginId == TrimSpace(trigger.pluginId)
    ensures row.workflow.currentIndex < |row.workflow.steps|
    ensures Wakes(row, trigger, now, Compute(Some(row), Fire(trigger, initial), now))
  {
    var (w, t) := (row.workflow, TrimTrigger(trigger));
    WakesExactly(w, log, t.eventType, now);
    if w.waitingForJob.None? {
      PassedIsReady(w);
      ContinueExecutes(row, Pass(w.(waitingFor := "", sleepingUntil := None)), t.eventId, t.eventType, now);
    }
  }

  lemma StartComputes(found: Option<Instance>, trigger: Trigger, initial: Workflow, now: Time)
    requires Fair(Fire(trigger, initial))
    requires found.Some? ==> NamedWaits(found.value.workflow.steps) && found.value.workflow.completed
    requires found.Some? ==> found.value.pluginId == TrimSpace(trigger.pluginId)
    ensures Starts(trigger, initial.steps, now, Compute(found, Fire(trigger, initial), now))
  {
    if initial.steps != [] {
      DriveEndsNamed(initial.(id := TrimSpace(trigger.workflowId)), now);
    }
  }

  predicate Opens(found: Option<Instance>) {
    found.Some? && !found.value.workflow.completed
  }

  lemma FireExactly(found: Option<Instance>, trigger: Trigger, initial: Workflow, log: Log, now: Time)
    requires Fair(Fire(trigger, initial))
    requires found.Some? ==> RowSound(TrimSpace(trigger.workflowId), found.value, log)
    ensures Opens(found) ==> found.value.workflow.currentIndex < |found.value.workflow.steps|
    ensures var r := Compute(found, Fire(trigger, initial), now);
            if found.Some? && found.value.pluginId != TrimSpace(trigger.pluginId) then r == Err(WrongOwner)
            else if Opens(found) then Wakes(found.value, trigger, now, r)
            else Starts(trigger, initial.steps, now, r)
  {
    if found.Some? && found.value.pluginId != TrimSpace(trigger.pluginId) {
    } else if Opens(found) {
      WakeComputes(found.value, trigger, initial, log, now);
    } else {
      StartComputes(found, trigger, initial, now);
    }
  }

  // ---- Deliveries ----

  /** The record that a call in step `step` keeps of its child's outcome. */
  predicate Kept(result: JobResult, step: WorkflowStep, jobId: string, status: Status, code: ReasonCode, text: string) {
    && result.jobId == TrimSpace(jobId) && result.stepName == TrimSpace(step.name)
    && result.status == status && result.reasonCode == code && result.lastError == TrimSpace(text)
  }

  /** The row waits for this job, whose status is terminal. */
  predicate Awaits(w: Workflow, jobId: string, status: Status) {
    && w.currentIndex < |w.steps| && w.steps[w.currentIndex].kind.CallJob?
    && TrimSpace(jobId) == TrimSpace(w.steps[w.currentIndex].value)
    && status in {Done, Cancelled, Failed, Dead}
  }

  /** Accepting an outcome, for a delivery or for a recovery pass. */
  lemma AcceptsAwaited(w: Workflow, log: Log, result: JobResult)
    requires Ran(w, log.results) && Timed(w, log) && !StatusOf(w).Ready? && result.stepName == ""
    requires TrimSpace(result.jobId) != ""
    ensures var r := ResumeWithChildJob(w, result);
            && (r.Ok? <==> Awaits(w, result.jobId, result.status))
            && (r.Ok? ==>
                  && Accepted(w, result).jobId == TrimSpace(result.jobId)
                  && Accepted(w, result) == result.(jobId := TrimSpace(result.jobId),
                                                    stepName := TrimSpace(w.steps[w.currentIndex].name))
                  && Posture(r.value) && StatusOf(r.value) in {Ready, Completed}
                  && r.value.waitingFor == "" && r.value.waitingForJob.None? && r.value.sleepingUntil.None?
                  && r.value.id == w.id && r.value.steps == w.steps && r.value.currentIndex == w.currentIndex + 1)
            && (r.Err? ==> r.error == if w.completed then NoCurrentStep
                                      else if w.waitingForJob.None? then NotWaitingForJob
                                      else if result.status !in {Done, Cancelled, Failed, Dead} then NotTerminal
                                      else UnexpectedJob)
  {
    TrimSpaceFixes(result.jobId);
    TrimSpaceFixes(TrimSpace(result.jobId));
    if w.waitingForJob.Some? {
      TrimSpaceFixes(w.steps[w.currentIndex].value);
      TrimSpaceFixes(TrimSpace(w.steps[w.currentIndex].value));
    }
    if ResumeWithChildJob(w, result).Ok? {
      AcceptedRow(w, log, result, 0);
    }
  }

  /** What a delivery makes of the row that it loads: refused unless the row belongs to the plugin and waits for just
      this job; otherwise the run goes on behind its call. */
  ghost predicate Delivers(row: Instance, pluginId: string, child: ChildOutcome, now: Time, r: Reply) {
    var w := row.workflow;
    if row.pluginId != TrimSpace(pluginId) then r == Err(WrongOwner)
    else if w.waitingForJob.None? then r == Err(Rejected(NotWaitingForJob))
    else if !Awaits(w, child.jobId, child.status) then r == Err(Rejected(UnexpectedJob))
    else
      && Executes(w.steps, w.currentIndex + 1, r)
      && (r.Ok? ==>
            && !r.value.started
            && Stamped(r.value.instance, row.workflowId, row.pluginId, "job.result:" + TrimSpace(child.jobId),
                       "job.result", row.createdAt, now))
  }

  lemma DeliverExactly(row: Instance, workflowId: string, pluginId: string, child: ChildOutcome, log: Log, now: Time)
    requires RowSound(TrimSpace(workflowId), row, log)
    requires !IsBlank(child.jobId) && child.status in {Done, Cancelled, Failed, Dead}
    ensures Delivers(row, pluginId, child, now, Compute(Some(row), Deliver(workflowId, pluginId, child), now))
    ensures Awaits(row.workflow, child.jobId, child.status) ==>
              && CurrentStep(row.workflow).Some?
              && Kept(Accepted(row.workflow, ResultOf(child)), row.workflow.steps[row.workflow.currentIndex],
                      child.jobId, child.status, child.reasonCode, child.lastError)
  {
    TrimSpaceFixes(child.jobId);
    TrimSpaceFixes(TrimSpace(child.jobId));
    var result := ResultOf(child);
    AcceptsAwaited(row.workflow, log, result);
    if ResumeWithChildJob(row.workflow, result).Ok? {
      ContinueExecutes(row, ResumeWithChildJob(row.workflow, result).value, CheckpointId(result.jobId), "job.result",
                       now);
    }
  }

  // ---- Whole calls ----

  /** The state that a call leaves: the row it loaded is cached, and the row that it wrote is cached and stored. */
  predicate Leaves(s: RuntimeState, s': RuntimeState, id: string, r: Reply) {
    var rows := s.tables.instances;
    && s'.tables == s.tables.(instances := if r.Ok? then rows[id := r.value.instance] else rows)
    && s'.cache == (if r.Ok? then s.cache[id := r.value.instance] else if id in rows then s.cache[id := rows[id]]
                    else s.cache)
  }

  /** What is about to be written goes under the id that was loaded, for the same plugin. */
  lemma ComputedOwns(found: Option<Instance>, c: Call, log: Log, now: Time)
    requires Fair(c) && now != ZERO_TIME && CallError(c).None?
    requires found.Some? ==> RowSound(Target(c), found.value, log)
    ensures var r := Compute(found, c, now);
            r.Ok? ==> && Keyed(Target(c), r.value.instance)
                      && (found.Some? ==> r.value.instance.pluginId == found.value.pluginId)
  {
    match c
    case Fire(trigger, initial) =>
      FireComputes(found, trigger, initial, log, now);
      FireExactly(found, trigger, initial, log, now);
    case Deliver(workflowId, pluginId, child) =>
      DeliverComputes(found, workflowId, pluginId, child, log, now);
  }

  /** The second half of a call that loaded the row under `id` and computed this. */
  lemma FinishLeaves(s: RuntimeState, id: string, computed: Reply, up: bool)
    requires computed.Ok? ==> Keyed(id, computed.value.instance)
    requires computed.Ok? && id in s.tables.instances ==>
             computed.value.instance.pluginId == s.tables.instances[id].pluginId
    ensures var (s', r) := if computed.Err? then (Loaded(s, id), computed)
                           else Save(Loaded(s, id), computed.value.instance, computed.value.started, up);
            Leaves(s, s', id, r) && r == if computed.Ok? && !up then Err(SaveFailed) else computed
  {
    if computed.Ok? {
      SaveWrites(Loaded(s, id), computed.value.instance, computed.value.started, up);
    }
  }

  lemma InvokeLeaves(s: RuntimeState, c: Call, log: Log, now: Time, up: bool)
    requires Drivable(s.tables) && Fair(c) && now != ZERO_TIME && CallError(c).None?
    requires Target(c) in s.tables.instances ==> RowSound(Target(c), s.tables.instances[Target(c)], log)
    ensures var ((s', r), computed) := (Invoke(s, c, now, up), Compute(Found(s.tables, Target(c)), c, now));
            Leaves(s, s', Target(c), r) && r == if computed.Ok? && !up then Err(SaveFailed) else computed
  {
    var (id, found) := (Target(c), Found(s.tables, Target(c)));
    ComputedOwns(found, c, log, now);
    FinishLeaves(s, id, Compute(found, c, now), up);
  }

  /** A trigger names a workflow, a plugin, an event and its type; then it wakes the open run, or starts one, and that
      is written unless the database refuses. */
  lemma TriggerExactly(s: RuntimeState, trigger: Trigger, initial: Workflow, log: Log, now: Time, up: bool)
    requires Drivable(s.tables) && Fair(Fire(trigger, initial)) && now != ZERO_TIME
    requires var id := TrimSpace(trigger.workflowId);
             id in s.tables.instances ==> RowSound(id, s.tables.instances[id], log)
    ensures var ((s', r), id) := (Invoke(s, Fire(trigger, initial), now, up), TrimSpace(trigger.workflowId));
            var computed := Compute(Found(s.tables, id), Fire(trigger, initial), now);
            if IsBlank(trigger.workflowId) then s' == s && r == Err(MissingWorkflowId)
            else if IsBlank(trigger.pluginId) then s' == s && r == Err(MissingPluginId)
            else if IsBlank(trigger.eventId) then s' == s && r == Err(MissingEventId)
            else if IsBlank(trigger.eventType) then s' == s && r == Err(MissingEventType)
            else Leaves(s, s', id, r) && r == if computed.Ok? && !up then Err(SaveFailed) else computed
  {
    if CallError(Fire(trigger, initial)).None? {
      InvokeLeaves(s, Fire(trigger, initial), log, now, up);
    }
  }

  /** A delivery names a workflow, a plugin and a job whose status is terminal. */
  lemma DeliveryExactly(s: RuntimeState, workflowId: string, pluginId: string, child: ChildOutcome, log: Log, now: Time,
                        up: bool)
    requires Drivable(s.tables) && now != ZERO_TIME
    requires var id := TrimSpace(workflowId);
             id in s.tables.instances ==> RowSound(id, s.tables.instances[id], log)
    ensures var (c, id) := (Deliver(workflowId, pluginId, child), TrimSpace(workflowId));
            var ((s', r), computed) := (Invoke(s, c, now, up), Compute(Found(s.tables, id), c, now));
            if IsBlank(workflowId) then s' == s && r == Err(MissingWorkflowId)
            else if IsBlank(pluginId) then s' == s && r == Err(MissingPluginId)
            else if IsBlank(child.jobId) then s' == s && r == Err(RuntimeError.MissingJobId)
            else if child.status !in {Done, Cancelled, Failed, Dead} then s' == s && r == Err(ChildNotTerminal)
            else Leaves(s, s', id, r) && r == if computed.Ok? && !up then Err(SaveFailed) else computed
  {
    if CallError(Deliver(workflowId, pluginId, child)).None? {
      InvokeLeaves(s, Deliver(workflowId, pluginId, child), log, now, up);
    }
  }

  /** What saving any row does: it is refused without an id or an owner and when the stored row has another owner, and
      is otherwise stored under its trimmed id, which its workflow is given as well. */
  lemma SaveExactly(t: Tables, instance: Instance, up: bool)
    ensures var (saved, id, plugin) := (SaveInstance(t, instance, up), TrimSpace(instance.workflowId),
                                        TrimSpace(instance.pluginId));
            && (saved.Some? <==>
                  && up && id != "" && plugin != ""
                  && (id in t.instances ==> t.instances[id].pluginId == plugin))
            && (saved.Some? ==>
                  saved.value == t.(instances := t.instances[id :=
                    instance.(workflowId := id, pluginId := plugin, workflow := instance.workflow.(id := id))]))
  {
  }

  // ---- Recovery ----

  /** The bookkeeping of any row after a pass that succeeds, also of one whose names are not trimmed or whose times are
      missing. */
  lemma RestoreStamps(jobs: map<string, Job>, row: Instance, at: Time)
    requires NamedWaits(row.workflow.steps) && forall k :: k in jobs ==> jobs[k].id == k
    ensures var (r, missed) := (RestoreInstance(jobs, row, at), Missed(jobs, row.workflow));
            var created := if row.createdAt == ZERO_TIME then at else row.createdAt;
            if IsBlank(row.workflowId) then r == Err(MissingWorkflowId)
            else if IsBlank(row.pluginId) then r == Err(MissingPluginId)
            else
              r.Ok? ==>
                && Stamped(r.value, TrimSpace(row.workflowId), TrimSpace(row.pluginId),
                           if missed.Some? then "job.result:" + missed.value.jobId else row.lastEventId,
                           if missed.Some? then "job.result" else row.lastEventType, created,
                           if row.updatedAt == ZERO_TIME then created else row.updatedAt)
                && r.value.status == StatusOf(r.value.workflow)
  {
    var id := TrimSpace(row.workflowId);
    var missed := Missed(jobs, row.workflow);
    if RestoreInstance(jobs, row, at).Ok? {
      var named := row.workflow.(id := id);
      var w := if missed.Some? then ResumeWithChildJob(named, MissedResult(missed.value)).value else named;
      NamedNeverStalls(w, at);
      DriveKeepsName(w, at);
      if missed.Some? {
        TrimSpaceFixes(row.workflow.waitingForJob.value.jobId);
        TrimSpaceFixes(missed.value.jobId);
      }
    }
  }

  /** The awaited job has a row, and that row says it is over. */
  predicate IsOver(jobs: map<string, Job>, w: Workflow) {
    && w.currentIndex < |w.steps| && w.steps[w.currentIndex].kind.CallJob?
    && var jobId := TrimSpace(w.steps[w.currentIndex].value);
    jobId in jobs && jobs[jobId].status in {Done, Cancelled, Failed, Dead}
  }

  /** The step that recovery executes from, unless the row goes on waiting. */
  function GoesOnAt(jobs: map<string, Job>, w: Workflow, at: Time): Option<nat> {
    if IsOver(jobs, w) || (w.sleepingUntil.Some? && w.sleepingUntil.value <= at) then Some(w.currentIndex + 1) else None
  }

  /** A pass that goes on with `resumed` drives it and keeps the row's bookkeeping but for a missed outcome's event. */
  lemma RestoreDrives(jobs: map<string, Job>, id: string, row: Instance, resumed: Workflow, at: Time)
    requires Keyed(id, row) && NamedWaits(row.workflow.steps)
    requires var missed := Missed(jobs, row.workflow);
             if missed.Some? then ResumeWithChildJob(row.workflow, MissedResult(missed.value)) == Ok(resumed)
             else resumed == row.workflow
    requires Posture(resumed) && resumed.steps == row.workflow.steps && resumed.id == id
    requires resumed.waitingFor == "" && resumed.waitingForJob.None? && resumed.currentIndex <= |resumed.steps|
    requires resumed.sleepingUntil.Some? ==> resumed.sleepingUntil.value <= at
    ensures var (r, missed) := (RestoreInstance(jobs, row, at), Missed(jobs, row.workflow));
            && (r.Err? <==> Breaks(resumed.steps, ResumesAt(resumed)))
            && (r.Ok? ==>
                  && GoesTo(resumed.steps, ResumesAt(resumed), r.value.workflow.currentIndex)
                  && Stamped(r.value, id, row.pluginId,
                             if missed.Some? then CheckpointId(missed.value.jobId) else row.lastEventId,
                             if missed.Some? then "job.result" else row.lastEventType, row.createdAt, row.updatedAt))
  {
    assert row.(workflowId := id, pluginId := row.pluginId, workflow := row.workflow.(id := id)) == row;
    DriveEndsNamed(resumed, at);
  }

  lemma RestoreRests(jobs: map<string, Job>, id: string, row: Instance, at: Time)
    requires Keyed(id, row) && NamedWaits(row.workflow.steps) && row.status == StatusOf(row.workflow)
    requires Missed(jobs, row.workflow).None? && TurnOf(row.workflow, at).Halt?
    ensures RestoreInstance(jobs, row, at) == Ok(row)
  {
    assert row.(workflowId := id, pluginId := row.pluginId, workflow := row.workflow.(id := id)) == row;
    NamedNeverStalls(row.workflow, at);
  }

  /** A recovery pass over a row: it goes on when its child job or its sleep is over, and stays as it is otherwise; only
      a missed outcome changes the last event, and no pass changes the times. */
  lemma RestoreExactly(jobs: map<string, Job>, id: string, row: Instance, log: Log, at: Time)
    requires RowSound(id, row, log) && (forall k :: k in jobs ==> jobs[k].id == k)
    ensures var (r, w, goesOn) := (RestoreInstance(jobs, row, at), row.workflow, GoesOnAt(jobs, row.workflow, at));
            && (goesOn.None? ==> r == Ok(row))
            && (goesOn.Some? && Breaks(w.steps, goesOn.value) ==> r.Err?)
            && (goesOn.Some? && !Breaks(w.steps, goesOn.value) ==>
                  && r.Ok? && GoesTo(w.steps, goesOn.value, r.value.workflow.currentIndex)
                  && Stamped(r.value, id, row.pluginId,
                             if IsOver(jobs, w) then "job.result:" + TrimSpace(w.steps[w.currentIndex].value)
                             else row.lastEventId,
                             if IsOver(jobs, w) then "job.result" else row.lastEventType,
                             row.createdAt, row.updatedAt)
                  && (IsOver(jobs, w) ==>
                        && var job := jobs[TrimSpace(w.steps[w.currentIndex].value)];
                        && |Recalled(jobs, w)| == 1
                        && Kept(Recalled(jobs, w)[0], w.steps[w.currentIndex], job.id, job.status, job.reasonCode,
                                job.lastError)))
  {
    var w := row.workflow;
    if w.waitingForJob.Some? {
      TrimSpaceFixes(w.steps[w.currentIndex].value);
      TrimSpaceFixes(TrimSpace(w.steps[w.currentIndex].value));
    }
    if IsOver(jobs, w) {
      var result := MissedResult(Missed(jobs, w).value);
      AcceptsAwaited(w, log, result);
      RestoreDrives(jobs, id, row, ResumeWithChildJob(w, result).value, at);
    } else if GoesOnAt(jobs, w, at).Some? {
      RestoreDrives(jobs, id, row, w, at);
    } else {
      RestoreRests(jobs, id, row, at);
    }
  }

  // ---- A whole recovery ----

  /** A row that recovery cannot drive, or cannot write back. */
  ghost predicate Unrecoverable(jobs: map<string, Job>, row: Instance, at: Time, failing: set<string>) {
    var goesOn := GoesOnAt(jobs, row.workflow, at);
    row.workflowId in failing || (goesOn.Some? && Breaks(row.workflow.steps, goesOn.value))
  }

  /** Listed rows that are sound, each with the log that the world remembers. */
  ghost predicate AllSound(w: World, t: Tables, listing: seq<Instance>) {
    && IsListing(listing, t.instances) && (forall k :: k in t.jobs ==> t.jobs[k].id == k)
    && forall i :: 0 <= i < |listing| ==>
         RowSound(listing[i].workflowId, listing[i], LogOf(w, listing[i].workflowId))
  }

  lemma RestoreRowExactly(w: World, t: Tables, row: Instance, at: Time, failing: set<string>)
    requires RowSound(row.workflowId, row, LogOf(w, row.workflowId)) && (forall k :: k in t.jobs ==> t.jobs[k].id == k)
    requires row.workflowId in t.instances && t.instances[row.workflowId] == row && at != ZERO_TIME
    ensures var r := RestoreRow(t, row, at, row.workflowId !in failing);
            && (r.None? <==> Unrecoverable(t.jobs, row, at, failing))
            && (r.Some? ==>
                  && r.value.0.workflowId == row.workflowId
                  && r.value.1 == t.(instances := t.instances[row.workflowId := r.value.0]))
  {
    var log := LogOf(w, row.workflowId);
    RestoreExactly(t.jobs, row.workflowId, row, log, at);
    if RestoreInstance(t.jobs, row, at).Ok? {
      RestoredRow(t.jobs, row.workflowId, row, log, at);
      var restored := RestoreInstance(t.jobs, row, at).value;
      SaveExactly(t, restored, row.workflowId !in failing);
      assert restored.(workflowId := row.workflowId, pluginId := row.pluginId,
                       workflow := restored.workflow.(id := row.workflowId)) == restored;
    }
  }

  /** The rows behind the first one, once that is recovered. */
  lemma RestStaysSound(w: World, t: Tables, listing: seq<Instance>, at: Time, failing: set<string>)
    requires AllSound(w, t, listing) && listing != [] && at != ZERO_TIME
    requires !Unrecoverable(t.jobs, listing[0], at, failing)
    ensures var r := RestoreRow(t, listing[0], at, listing[0].workflowId !in failing);
            && r.Some? && r.value.0.workflowId == listing[0].workflowId && r.value.1.jobs == t.jobs
            && r.value.1.instances == t.instances[listing[0].workflowId := r.value.0]
            && AllSound(w, r.value.1, listing[1..]) && !Lists(listing[1..], listing[0].workflowId)
  {
    RestoreRowExactly(w, t, listing[0], at, failing);
    assert forall i :: 0 <= i < |listing[1..]| ==> listing[1..][i] == listing[i + 1];
  }

  /** Recovery stops at the first row that it cannot recover. */
  lemma {:induction false} SweepIsDone(w: World, cache: map<string, Instance>, t: Tables, listing: seq<Instance>,
                                       at: Time, failing: set<string>)
    requires AllSound(w, t, listing) && at != ZERO_TIME
    ensures SweepInstances(cache, t, listing, at, failing).done <==>
            forall i :: 0 <= i < |listing| ==> !Unrecoverable(t.jobs, listing[i], at, failing)
    decreases |listing|
  {
    if listing != [] {
      var (row, rest) := (listing[0], listing[1..]);
      RestoreRowExactly(w, t, row, at, failing);
      assert forall i :: 0 < i < |listing| ==> listing[i] == rest[i - 1];
      if !Unrecoverable(t.jobs, row, at, failing) {
        RestStaysSound(w, t, listing, at, failing);
        var (restored, u) := RestoreRow(t, row, at, row.workflowId !in failing).value;
        SweepIsDone(w, cache[row.workflowId := restored], u, rest, at, failing);
      }
    }
  }

  lemma FirstOrRest(listing: seq<Instance>, id: string)
    requires listing != []
    ensures Lists(listing, id) <==> listing[0].workflowId == id || Lists(listing[1..], id)
  {
    assert forall i :: 0 < i < |listing| ==> listing[i] == listing[1..][i - 1];
  }

  /** What a finished recovery has cached under an id: the row as it is stored now, if it was listed. */
  lemma {:induction false} SweepCaches(w: World, cache: map<string, Instance>, t: Tables, listing: seq<Instance>,
                                       at: Time, failing: set<string>, id: string)
    requires AllSound(w, t, listing) && at != ZERO_TIME && SweepInstances(cache, t, listing, at, failing).done
    ensures var swept := SweepInstances(cache, t, listing, at, failing);
            if Lists(listing, id) then id in swept.cache && Found(swept.tables, id) == Some(swept.cache[id])
            else CachedAlike(cache, swept.cache, id) && Found(swept.tables, id) == Found(t, id)
    decreases |listing|
  {
    if listing != [] {
      var (row, rest) := (listing[0], listing[1..]);
      RestoreRowExactly(w, t, row, at, failing);
      RestStaysSound(w, t, listing, at, failing);
      var (restored, u) := RestoreRow(t, row, at, row.workflowId !in failing).value;
      SweepCaches(w, cache[row.workflowId := restored], u, rest, at, failing, id);
      FirstOrRest(listing, id);
    }
  }

  predicate CachedAlike(a: map<string, Instance>, b: map<string, Instance>, id: string) {
    (id in a <==> id in b) && (id in a ==> a[id] == b[id])
  }

  /** A recovery of sound rows succeeds if and only if it can recover every one of them; the cache then holds just the
      listed rows as they are stored, and is kept otherwise. */
  lemma RecoversExactly(w: World, s: RuntimeState, listing: seq<Instance>, at: Time, failing: set<string>, id: string)
    requires AllSound(w, s.tables, listing) && at != ZERO_TIME
    ensures var (s', ok) := Restore(s, listing, at, failing);
            && (ok <==> forall i :: 0 <= i < |listing| ==> !Unrecoverable(s.tables.jobs, listing[i], at, failing))
            && if !ok then s'.cache == s.cache
               else if Lists(listing, id) then id in s'.cache && Found(s'.tables, id) == Some(s'.cache[id])
               else id !in s'.cache
  {
    SweepIsDone(w, map[], s.tables, listing, at, failing);
    if Restore(s, listing, at, failing).1 {
      SweepCaches(w, map[], s.tables, listing, at, failing, id);
    }
  }
}
