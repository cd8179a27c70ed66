/** Stored workflow instances, their triggers, and recovery after a restart
    (packages/runtime-core/workflow.go, packages/runtime-core/postgres.go). */
module WorkflowRuntimes {
  import opened Base
  import opened Jobs
  import opened Workflows

  datatype Instance = Instance(
    workflowId: string,
    pluginId: string,
    status: RuntimeStatus,
    workflow: Workflow,
    lastEventId: string,
    lastEventType: string,
    createdAt: Time,
    updatedAt: Time)

  datatype Tables = Tables(instances: map<string, Instance>, jobs: map<string, Job>)

  /** `cache` is the runtime's own copy of the rows it has seen. */
  datatype RuntimeState = RuntimeState(cache: map<string, Instance>, tables: Tables)

  datatype RuntimeError =
    | MissingWorkflowId | MissingPluginId | MissingEventId | MissingEventType | MissingJobId
    | NotFound | WrongOwner | NoSteps | ChildNotTerminal | WaitingForChild | NothingToResume
    | Rejected(cause: WorkflowError) | SaveFailed

  datatype Transition = Transition(instance: Instance, started: bool)

  type Reply = Result<Transition, RuntimeError>

  /** Every stored instance can be driven without looping. */
  ghost predicate Drivable(t: Tables) {
    forall id :: id in t.instances ==> NamedWaits(t.instances[id].workflow.steps)
  }

  /** Upsert of one instance, refused when the row belongs to another plugin. */
  function SaveInstance(t: Tables, instance: Instance, up: bool): Option<Tables> {
    var row := instance.(workflowId := TrimSpace(instance.workflowId), pluginId := TrimSpace(instance.pluginId));
    var stored := row.(workflow := row.workflow.(id := row.workflowId));
    if !up || row.workflowId == "" || row.pluginId == "" then None
    else if row.workflowId in t.instances && t.instances[row.workflowId].pluginId != row.pluginId then None
    else Some(t.(instances := t.instances[row.workflowId := stored]))
  }

  function Save(s: RuntimeState, instance: Instance, started: bool, up: bool): (RuntimeState, Reply) {
    match SaveInstance(s.tables, instance, up)
    case None => (s, Err(SaveFailed))
    case Some(t) => (RuntimeState(s.cache[instance.workflowId := instance], t), Ok(Transition(instance, started)))
  }

  /** Loading a row also refreshes the cached copy. */
  function Loaded(s: RuntimeState, id: string): RuntimeState {
    if id in s.tables.instances then s.(cache := s.cache[id := s.tables.instances[id]]) else s
  }

  function Found(t: Tables, id: string): Option<Instance> {
    if id in t.instances then Some(t.instances[id]) else None
  }

  /** A resumed workflow, driven, with the trigger as its last event: what a call is about to write back. */
  function Continue(current: Instance, resumed: Workflow, eventId: string, eventType: string, now: Time): Reply
    requires NamedWaits(resumed.steps)
  {
    match DriveNamed(resumed, now)
    case Err(e) => Err(Rejected(e))
    case Ok(driven) =>
      Ok(Transition(
        current.(workflow := driven, status := StatusOf(driven), lastEventId := eventId, lastEventType := eventType,
                 updatedAt := now, createdAt := if current.createdAt == ZERO_TIME then now else current.createdAt),
        false))
  }

  /** Moves a waiting workflow past its wait on an event or after its sleep. */
  function Wake(w: Workflow, eventType: string, now: Time): Result<Workflow, RuntimeError> {
    var woken := if w.waitingFor != "" then ResumeWithEvent(w, eventType) else ResumeAfterSleep(w, now);
    if w.waitingFor == "" && w.waitingForJob.Some? then Err(WaitingForChild)
    else if w.waitingFor == "" && w.sleepingUntil.None? then Err(NothingToResume)
    else if woken.Err? then Err(Rejected(woken.error)) else Ok(woken.value)
  }

  datatype Trigger = Trigger(workflowId: string, pluginId: string, eventType: string, eventId: string)

  function TrimTrigger(t: Trigger): Trigger {
    Trigger(TrimSpace(t.workflowId), TrimSpace(t.pluginId), TrimSpace(t.eventType), TrimSpace(t.eventId))
  }

  function TriggerError(t: Trigger): Option<RuntimeError> {
    if t.workflowId == "" then Some(MissingWorkflowId)
    else if t.pluginId == "" then Some(MissingPluginId)
    else if t.eventId == "" then Some(MissingEventId)
    else if t.eventType == "" then Some(MissingEventType)
    else None
  }

  function Start(t: Trigger, initial: Workflow, now: Time): Reply
    requires NamedWaits(initial.steps)
  {
    if initial.steps == [] then Err(NoSteps) else
    match DriveNamed(initial.(id := t.workflowId), now)
    case Err(e) => Err(Rejected(e))
    case Ok(driven) =>
      Ok(Transition(Instance(t.workflowId, t.pluginId, StatusOf(driven), driven, t.eventId, t.eventType, now, now),
                    true))
  }

  /** What a trigger makes of the row it loaded: a new run when none is open, else the open one moved past its wait. */
  function FireOn(found: Option<Instance>, t: Trigger, initial: Workflow, now: Time): Reply
    requires NamedWaits(initial.steps) && (found.Some? ==> NamedWaits(found.value.workflow.steps))
  {
    if found.Some? && found.value.pluginId != t.pluginId then Err(WrongOwner)
    else if found.None? || found.value.workflow.completed then Start(t, initial, now)
    else
      match Wake(found.value.workflow, t.eventType, now)
      case Err(e) => Err(e)
      case Ok(woken) => Continue(found.value, woken, t.eventId, t.eventType, now)
  }

  function CheckpointId(jobId: string): string {
    if TrimSpace(jobId) == "" then "job.result" else "job.result:" + TrimSpace(jobId)
  }

  /** A child job's outcome as a caller hands it over. */
  datatype ChildOutcome = ChildOutcome(jobId: string, status: Status, reasonCode: ReasonCode, lastError: string)

  function ResultOf(child: ChildOutcome): JobResult {
    JobResult("", TrimSpace(child.jobId), child.status, child.reasonCode, TrimSpace(child.lastError))
  }

  /** What the delivery of a child outcome makes of the row it loaded. */
  function DeliverOn(found: Option<Instance>, plugin: string, result: JobResult, now: Time): Reply
    requires found.Some? ==> NamedWaits(found.value.workflow.steps)
  {
    if found.None? then Err(NotFound)
    else if found.value.pluginId != plugin then Err(WrongOwner)
    else if found.value.workflow.waitingForJob.None? then Err(Rejected(NotWaitingForJob))
    else
      match ResumeWithChildJob(found.value.workflow, result)
      case Err(e) => Err(Rejected(e))
      case Ok(resumed) => Continue(found.value, resumed, CheckpointId(result.jobId), "job.result", now)
  }

  // ---- Calls: checked, computed from the row that was loaded, then saved ----

  datatype Call =
    | Fire(trigger: Trigger, initial: Workflow)
    | Deliver(workflowId: string, pluginId: string, child: ChildOutcome)

  predicate Sensible(c: Call) {
    c.Fire? ==> NamedWaits(c.initial.steps)
  }

  function Target(c: Call): string {
    TrimSpace(if c.Fire? then c.trigger.workflowId else c.workflowId)
  }

  function CallError(c: Call): Option<RuntimeError> {
    match c
    case Fire(trigger, _) => TriggerError(TrimTrigger(trigger))
    case Deliver(workflowId, pluginId, child) =>
      if IsBlank(workflowId) then Some(MissingWorkflowId)
      else if IsBlank(pluginId) then Some(MissingPluginId)
      else if IsBlank(child.jobId) then Some(RuntimeError.MissingJobId)
      else if !IsTerminal(child.status) then Some(ChildNotTerminal)
      else None
  }

  /** What a call that passed its checks is about to write, computed from the row it loaded. */
  function Compute(found: Option<Instance>, c: Call, now: Time): Reply
    requires Sensible(c) && (found.Some? ==> NamedWaits(found.value.workflow.steps))
  {
    match c
    case Fire(trigger, initial) => FireOn(found, TrimTrigger(trigger), initial, now)
    case Deliver(_, pluginId, child) => DeliverOn(found, TrimSpace(pluginId), ResultOf(child), now)
  }

  /** The first half of a call: checks, loads and computes. Nothing is locked or written until the second half. */
  function Begin(s: RuntimeState, c: Call, now: Time): (RuntimeState, Reply)
    requires Drivable(s.tables) && Sensible(c)
  {
    if CallError(c).Some? then (s, Err(CallError(c).value))
    else (Loaded(s, Target(c)), Compute(Found(s.tables, Target(c)), c, now))
  }

  /** A call that nothing interrupts: both halves in a row. */
  function Invoke(s: RuntimeState, c: Call, now: Time, up: bool): (RuntimeState, Reply)
    requires Drivable(s.tables) && Sensible(c)
  {
    var (loaded, r) := Begin(s, c, now);
    match r
    case Err(e) => (loaded, Err(e))
    case Ok(t) => Save(loaded, t.instance, t.started, up)
  }

  // ---- Recovery ----

  /** The stored outcome that a waiting workflow has missed, if its child job is over. */
  function Missed(jobs: map<string, Job>, w: Workflow): Option<ChildOutcome> {
    if w.waitingForJob.None? then None else
    var jobId := TrimSpace(w.waitingForJob.value.jobId);
    if jobId == "" || jobId !in jobs || !IsTerminal(jobs[jobId].status) then None
    else Some(ChildOutcome(jobs[jobId].id, jobs[jobId].status, jobs[jobId].reasonCode, jobs[jobId].lastError))
  }

  /** The result record that recovery builds leaves the job id as it is stored. */
  function MissedResult(child: ChildOutcome): JobResult {
    JobResult("", child.jobId, child.status, child.reasonCode, TrimSpace(child.lastError))
  }

  function RestoreInstance(jobs: map<string, Job>, stored: Instance, at: Time): Result<Instance, RuntimeError>
    requires NamedWaits(stored.workflow.steps)
  {
    var id, plugin := TrimSpace(stored.workflowId), TrimSpace(stored.pluginId);
    if id == "" then Err(MissingWorkflowId) else
    if plugin == "" then Err(MissingPluginId) else
    var named := stored.(workflowId := id, pluginId := plugin, workflow := stored.workflow.(id := id));
    var missed := Missed(jobs, named.workflow);
    var resumed := if missed.Some? then ResumeWithChildJob(named.workflow, MissedResult(missed.value))
        else Ok(named.workflow);
    match resumed
    case Err(e) => Err(Rejected(e))
    case Ok(w) =>
      match DriveNamed(w, at)
      case Err(e) => Err(Rejected(e))
      case Ok(driven) =>
        var created := if stored.createdAt == ZERO_TIME then at else stored.createdAt;
        Ok(named.(workflow := driven, status := StatusOf(driven),
                  lastEventId := if missed.Some? then CheckpointId(missed.value.jobId) else stored.lastEventId,
                  lastEventType := if missed.Some? then "job.result" else stored.lastEventType,
                  createdAt := created,
                  updatedAt := if stored.updatedAt == ZERO_TIME then created else stored.updatedAt))
  }

  /** A recovery pass over one row: written back, or left alone when it cannot be driven or saved. */
  function RestoreRow(t: Tables, stored: Instance, at: Time, up: bool): Option<(Instance, Tables)>
    requires NamedWaits(stored.workflow.steps)
  {
    match RestoreInstance(t.jobs, stored, at)
    case Err(_) => None
    case Ok(restored) =>
      match SaveInstance(t, restored, up)
      case None => None
      case Some(u) => Some((restored, u))
  }

  datatype Sweep = Sweep(cache: map<string, Instance>, tables: Tables, done: bool)

  /** Recovers the listed rows in order and stops at the first one that fails. */
  function SweepInstances(cache: map<string, Instance>, t: Tables, listing: seq<Instance>, at: Time,
                          failing: set<string>): Sweep
    requires forall i :: 0 <= i < |listing| ==> NamedWaits(listing[i].workflow.steps)
    decreases |listing|
  {
    if listing == [] then Sweep(cache, t, true) else
    match RestoreRow(t, listing[0], at, listing[0].workflowId !in failing)
    case None => Sweep(cache, t, false)
    case Some((restored, u)) => SweepInstances(cache[restored.workflowId := restored], u, listing[1..], at, failing)
  }

  function Restore(s: RuntimeState, listing: seq<Instance>, at: Time, failing: set<string>): (RuntimeState, bool)
    requires forall i :: 0 <= i < |listing| ==> NamedWaits(listing[i].workflow.steps)
  {
    var swept := SweepInstances(map[], s.tables, listing, at, failing);
    (RuntimeState(if swept.done then swept.cache else s.cache, swept.tables), swept.done)
  }

  class WorkflowRuntime {
    var cache: map<string, Instance>
    var tables: Tables

    constructor (tables: Tables)
      ensures State() == RuntimeState(map[], tables)
    {
      cache, this.tables := map[], tables;
    }

    function State(): RuntimeState
      reads this
    {
      RuntimeState(cache, tables)
    }

    method Load(id: string) returns (found: Option<Instance>)
      modifies this`cache
      ensures State() == Loaded(old(State()), id)
      ensures found == if id in tables.instances then Some(tables.instances[id]) else None
    {
      if id !in tables.instances {
        return None;
      }
      cache := cache[id := tables.instances[id]];
      found := Some(tables.instances[id]);
    }

    method Store(instance: Instance, started: bool, up: bool) returns (r: Reply)
      modifies this
      ensures (State(), r) == Save(old(State()), instance, started, up)
    {
      var saved := SaveInstance(tables, instance, up);
      if saved.None? {
        return Err(SaveFailed);
      }
      tables := saved.value;
      cache := cache[instance.workflowId := instance];
      r := Ok(Transition(instance, started));
    }

    method Resume(current: Instance, resumed: Workflow, eventId: string, eventType: string, now: Time)
      returns (r: Reply)
      requires NamedWaits(resumed.steps)
      ensures r == Continue(current, resumed, eventId, eventType, now)
    {
      NamedNeverStalls(resumed, now);
      var driven := AdvanceUntilBlocked(resumed, now);
      if driven.Err? {
        return Err(Rejected(driven.error));
      }
      var updated := current.(workflow := driven.value, status := StatusOf(driven.value),
                              lastEventId := eventId, lastEventType := eventType, updatedAt := now);
      if updated.createdAt == ZERO_TIME {
        updated := updated.(createdAt := now);
      }
      r := Ok(Transition(updated, false));
    }

    /** Loads the row and starts a workflow under this id, or wakes the one that waits there; writes nothing. */
    method BeginFire(trigger: Trigger, initial: Workflow, now: Time) returns (r: Reply)
      requires Drivable(tables) && NamedWaits(initial.steps)
      modifies this`cache
      ensures (State(), r) == Begin(old(State()), Call.Fire(trigger, initial), now)
    {
      var t := TrimTrigger(trigger);
      if TriggerError(t).Some? {
        return Err(TriggerError(t).value);
      }
      var found := Load(t.workflowId);
      if found.Some? && found.value.pluginId != t.pluginId {
        return Err(WrongOwner);
      }
      if found.None? || found.value.workflow.completed {
        if initial.steps == [] {
          return Err(NoSteps);
        }
        NamedNeverStalls(initial.(id := t.workflowId), now);
        var driven := AdvanceUntilBlocked(initial.(id := t.workflowId), now);
        if driven.Err? {
          return Err(Rejected(driven.error));
        }
        return Ok(Transition(Instance(t.workflowId, t.pluginId, StatusOf(driven.value), driven.value,
                                      t.eventId, t.eventType, now, now), true));
      }
      var workflow := found.value.workflow;
      if workflow.waitingFor == "" && workflow.waitingForJob.Some? {
        return Err(WaitingForChild);
      }
      if workflow.waitingFor == "" && workflow.sleepingUntil.None? {
        return Err(NothingToResume);
      }
      var woken := if workflow.waitingFor != "" then ResumeWithEvent(workflow, t.eventType)
          else ResumeAfterSleep(workflow, now);
      if woken.Err? {
        return Err(Rejected(woken.error));
      }
      r := Resume(found.value, woken.value, t.eventId, t.eventType, now);
    }

    /** Loads the row and applies the outcome of a child job to the workflow that waits for it; writes nothing. */
    method BeginDeliver(workflowId: string, pluginId: string, child: ChildOutcome, now: Time) returns (r: Reply)
      requires Drivable(tables)
      modifies this`cache
      ensures (State(), r) == Begin(old(State()), Call.Deliver(workflowId, pluginId, child), now)
    {
      var id, plugin, result := TrimSpace(workflowId), TrimSpace(pluginId), ResultOf(child);
      if id == "" {
        return Err(MissingWorkflowId);
      }
      if plugin == "" {
        return Err(MissingPluginId);
      }
      if result.jobId == "" {
        return Err(RuntimeError.MissingJobId);
      }
      if !IsTerminal(result.status) {
        return Err(ChildNotTerminal);
      }
      var found := Load(id);
      if found.None? {
        return Err(NotFound);
      }
      if found.value.pluginId != plugin {
        return Err(WrongOwner);
      }
      if found.value.workflow.waitingForJob.None? {
        return Err(Rejected(NotWaitingForJob));
      }
      var resumed := ResumeWithChildJob(found.value.workflow, result);
      if resumed.Err? {
        return Err(Rejected(resumed.error));
      }
      r := Resume(found.value, resumed.value, CheckpointId(result.jobId), "job.result", now);
    }

    method Fire(trigger: Trigger, initial: Workflow, now: Time, up: bool) returns (r: Reply)
      requires Drivable(tables) && NamedWaits(initial.steps)
      modifies this
      ensures (State(), r) == Invoke(old(State()), Call.Fire(trigger, initial), now, up)
    {
      r := BeginFire(trigger, initial, now);
      if r.Ok? {
        r := Store(r.value.instance, r.value.started, up);
      }
    }

    method Deliver(workflowId: string, pluginId: string, child: ChildOutcome, now: Time, up: bool) returns (r: Reply)
      requires Drivable(tables)
      modifies this
      ensures (State(), r) == Invoke(old(State()), Call.Deliver(workflowId, pluginId, child), now, up)
    {
      r := BeginDeliver(workflowId, pluginId, child, now);
      if r.Ok? {
        r := Store(r.value.instance, r.value.started, up);
      }
    }

    /** Re-drives every stored instance after a restart. */
    method Recover(listing: seq<Instance>, at: Time, failing: set<string>) returns (ok: bool)
      requires forall i :: 0 <= i < |listing| ==> NamedWaits(listing[i].workflow.steps)
      modifies this
      ensures (State(), ok) == Restore(old(State()), listing, at, failing)
    {
      var restored: map<string, Instance> := map[];
      for i := 0 to |listing|
        invariant cache == old(cache)
        invariant SweepInstances(map[], old(tables), listing, at, failing)
               == SweepInstances(restored, tables, listing[i..], at, failing)
      {
        assert listing[i..][0] == listing[i] && listing[i..][1..] == listing[i + 1..];
        var row := RestoreRow(tables, listing[i], at, listing[i].workflowId !in failing);
        if row.None? {
          return false;
        }
        tables := row.value.1;
        restored := restored[row.value.0.workflowId := row.value.0];
      }
      cache := restored;
      ok := true;
    }
  }
}
