/** Workflow steps write into the state map that they are given; copies keep the cached workflow apart
    (packages/runtime-core/workflow.go). */
module WorkflowStates {
  import opened Base
  import opened Jobs
  import opened Workflows

  class StateMap {
    var entries: map<string, Entry>

    constructor (entries: map<string, Entry>)
      ensures this.entries == entries
    {
      this.entries := entries;
    }
  }

  /** A workflow record that refers to its state map; records that share the map share its writes. The `state` of
      the record itself is not used. */
  datatype Live = Live(record: Workflow, state: StateMap?)

  type LiveOutcome = Result<Live, WorkflowError>

  function Footprint(w: Live): set<StateMap> {
    if w.state == null then {} else {w.state}
  }

  /** The workflow value that the record and its map amount to. */
  function Content(w: Live): Workflow
    reads Footprint(w)
  {
    w.record.(state := if w.state == null then map[] else w.state.entries)
  }

  method Clone(w: Live) returns (copy: Live)
    ensures copy.state != null && fresh(copy.state) && Content(copy) == Content(w)
  {
    var state := new StateMap(if w.state == null then map[] else w.state.entries);
    copy := Live(w.record, state);
  }

  /** The map to write to, created when there is none. */
  method MapOf(w: Live) returns (state: StateMap)
    ensures state.entries == Content(w).state
    ensures if w.state == null then fresh(state) else state == w.state
  {
    if w.state == null {
      state := new StateMap(map[]);
    } else {
      state := w.state;
    }
  }

  /** One step in place: a persisted text is written into the map of the argument. */
  method AdvanceInPlace(w: Live, now: Time) returns (r: LiveOutcome)
    modifies Footprint(w)
    ensures match Advance(old(Content(w)), now)
            case Ok(next) => r.Ok? && Content(r.value) == next && r.value.state != null
            case Err(e) => r == Err(e) && Content(w) == old(Content(w))
    ensures r.Ok? && w.state != null ==> r.value.state == w.state
    ensures r.Ok? && w.state == null ==> fresh(r.value.state)
  {
    if CurrentStep(w.record).None? {
      return Err(NoCurrentStep);
    }
    var step := CurrentStep(w.record).value;
    var record := w.record;
    var state := MapOf(w);
    match step.kind {
      case Plain => record := record.(currentIndex := record.currentIndex + 1);
      case WaitEvent => record := record.(waitingFor := step.value);
      case Sleep => record := record.(sleepingUntil := Some(now + step.duration));
      case CallJob =>
        if IsBlank(step.value) {
          return Err(MissingJobId);
        }
        record := record.(waitingForJob := Some(CallJobState(TrimSpace(step.name), TrimSpace(step.value))),
                          lastJobResult := None);
      case PersistState =>
        state.entries := state.entries[step.name := Text(step.value)];
        record := record.(currentIndex := record.currentIndex + 1);
      case Compensate =>
        if record.lastJobResult.None? || RequiresCompensation(record.lastJobResult.value.status) {
          record := record.(compensated := true);
        }
        record := record.(currentIndex := record.currentIndex + 1);
      case Unknown(_) => return Err(UnsupportedStep);
    }
    if record.currentIndex >= |record.steps| && record.waitingFor == "" && record.waitingForJob.None?
        && record.sleepingUntil.None? {
      record := record.(completed := true);
    }
    r := Ok(Live(record, state));
  }

  /** Records an accepted outcome, under the name of its step if it has one, and passes the step. */
  method AcceptInPlace(w: Live, name: string, accepted: JobResult) returns (next: Live)
    modifies Footprint(w)
    ensures Content(next) == Pass(old(Content(w)).(
              waitingForJob := None, lastJobResult := Some(accepted),
              state := if IsBlank(name) then old(Content(w)).state
                else old(Content(w)).state[name := StateValue(accepted)]))
    ensures next.state != null && if w.state == null then fresh(next.state) else next.state == w.state
  {
    var state := MapOf(w);
    if !IsBlank(name) {
      state.entries := state.entries[name := StateValue(accepted)];
    }
    next := Live(Pass(w.record.(waitingForJob := None, lastJobResult := Some(accepted))), state);
  }

  /** Accepts a child outcome in place: the result is written into the map of the argument. */
  method ResumeWithChildJobInPlace(w: Live, result: JobResult) returns (r: LiveOutcome)
    modifies Footprint(w)
    ensures match ResumeWithChildJob(old(Content(w)), result)
            case Ok(next) => r.Ok? && Content(r.value) == next && r.value.state != null
            case Err(e) => r == Err(e) && Content(w) == old(Content(w))
    ensures r.Ok? && w.state != null ==> r.value.state == w.state
    ensures r.Ok? && w.state == null ==> fresh(r.value.state)
  {
    if CurrentStep(w.record).None? {
      return Err(NoCurrentStep);
    }
    var step := CurrentStep(w.record).value;
    if !step.kind.CallJob? || w.record.waitingForJob.None? {
      return Err(NotWaitingForJob);
    }
    var jobId := TrimSpace(result.jobId);
    if jobId == "" {
      return Err(MissingJobId);
    }
    if !IsTerminal(result.status) {
      return Err(NotTerminal);
    }
    var expected := TrimSpace(w.record.waitingForJob.value.jobId);
    if expected == "" {
      expected := TrimSpace(step.value);
    }
    if expected == "" {
      return Err(MissingJobId);
    }
    if jobId != expected {
      return Err(UnexpectedJob);
    }
    var accepted := result.(
      jobId := jobId, stepName := if IsBlank(result.stepName) then TrimSpace(step.name) else result.stepName);
    var next := AcceptInPlace(w, step.name, accepted);
    r := Ok(next);
  }

  /** The drive loop works on a copy, so that the workflow it is given stays as it is, also when a later step fails. */
  method DriveCopy(w: Live, now: Time) returns (r: LiveOutcome)
    requires !Stalls(Content(w), now)
    ensures match Drive(Content(w), now)
            case Ok(driven) => r.Ok? && r.value.state != null && fresh(r.value.state) && Content(r.value) == driven
            case Err(e) => r == Err(e)
  {
    var current := Clone(w);
    while true
      invariant current.state != null && fresh(current.state)
      invariant !Stalls(Content(current), now) && Drive(Content(current), now) == Drive(Content(w), now)
      decreases Rank(Content(current), now)
    {
      var record := current.record;
      if record.completed || record.waitingFor != "" || record.waitingForJob.Some? {
        return Ok(current);
      }
      if TurnOf(Content(current), now).Again? {
        TurnMakesProgress(Content(current), now);
      }
      if record.sleepingUntil.Some? {
        if record.sleepingUntil.value > now {
          return Ok(current);
        }
        var resumed := ResumeAfterSleep(Content(current), now);
        if resumed.Err? {
          return Err(resumed.error);
        }
        current := Live(resumed.value, current.state);
        continue;
      }
      var next := AdvanceInPlace(current, now);
      if next.Err? {
        return next;
      }
      current := next.value;
    }
  }

  /** Delivering an outcome to a cached workflow: whether it is refused, fails on the way or goes through, neither the
      cached record nor its map nor anything else that existed before is written. */
  method DeliverToCopy(cached: Live, result: JobResult, now: Time) returns (r: LiveOutcome)
    requires NamedWaits(cached.record.steps)
    ensures match ResumeWithChildJob(Content(cached), result)
            case Err(e) => r == Err(e)
            case Ok(resumed) =>
              match DriveNamed(resumed, now)
              case Err(e) => r == Err(e)
              case Ok(driven) => r.Ok? && r.value.state != null && fresh(r.value.state) && Content(r.value) == driven
  {
    var copy := Clone(cached);
    var resumed := ResumeWithChildJobInPlace(copy, result);
    if resumed.Err? {
      return resumed;
    }
    NamedNeverStalls(Content(resumed.value), now);
    r := DriveCopy(resumed.value, now);
  }
}
