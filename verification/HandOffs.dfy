/** The hand-off of a finished job's outcome to the workflow that called it (apps/runtime/main.go). */
module HandOffs {
  import opened Base
  import opened Jobs
  import opened Workflows
  import opened WorkflowMeaning
  import opened WorkflowRuntimes
  import opened WorkflowRuns
  import opened WorkflowLaws
  import opened WorkflowOverlaps
  import opened WorkflowTimes
  import opened RestingWorkflows
  import opened WorkflowCalls

  function Owner(payload: Payload): Option<(string, string)> {
    var (id, plugin) := (TrimSpace(payload.workflowId), TrimSpace(payload.pluginId));
    if id == "" || plugin == "" then None else Some((id, plugin))
  }

  function OutcomeOf(job: Job): ChildOutcome {
    ChildOutcome(job.id, job.status, job.reasonCode, TrimSpace(job.lastError))
  }

  /** The errors that say the workflow has moved on are not reported. */
  function Reported(r: Reply): Option<RuntimeError> {
    match r
    case Ok(_) => None
    case Err(Rejected(NotWaitingForJob)) => None
    case Err(Rejected(NoCurrentStep)) => None
    case Err(e) => Some(e)
  }

  function HandOff(s: RuntimeState, job: Job, now: Time, up: bool): (RuntimeState, Option<RuntimeError>)
    requires Drivable(s.tables)
  {
    if Owner(job.payload).None? || !IsTerminal(job.status) then (s, None) else
    var (id, plugin) := Owner(job.payload).value;
    var (u, r) := Invoke(s, Deliver(id, plugin, OutcomeOf(job)), now, up);
    (u, Reported(r))
  }

  method ResumeWorkflowFromTerminalChildJob(workflows: WorkflowRuntime, job: Job, now: Time, up: bool)
    returns (error: Option<RuntimeError>)
    requires Drivable(workflows.tables)
    modifies workflows
    ensures (workflows.State(), error) == HandOff(old(workflows.State()), job, now, up)
  {
    var owner := Owner(job.payload);
    if owner.None? {
      return None;
    }
    match job.status {
      case Done | Cancelled | Failed | Dead =>
      case _ => return None;
    }
    var r := workflows.Deliver(owner.value.0, owner.value.1, OutcomeOf(job), now, up);
    error := Reported(r);
  }

  lemma OwnerTrimmed(payload: Payload)
    requires Owner(payload).Some?
    ensures TrimSpace(Owner(payload).value.0) == Owner(payload).value.0
    ensures TrimSpace(Owner(payload).value.1) == Owner(payload).value.1
  {
    TrimSpaceFixes(payload.workflowId);
    TrimSpaceFixes(TrimSpace(payload.workflowId));
    TrimSpaceFixes(payload.pluginId);
    TrimSpaceFixes(TrimSpace(payload.pluginId));
  }

  /** The workflow waits for this job. */
  predicate Expects(w: Workflow, job: Job) {
    && w.waitingForJob.Some? && w.currentIndex < |w.steps|
    && TrimSpace(job.id) == TrimSpace(w.steps[w.currentIndex].value)
  }

  /** What a hand-off leaves of the stored row `row`, and the error it reports: it keeps quiet about a workflow that
      waits for no job. */
  ghost predicate HandsOver(s: RuntimeState, t: Tables, row: Instance, job: Job, now: Time, up: bool,
                            error: Option<RuntimeError>) {
    var w := row.workflow;
    if row.pluginId != TrimSpace(job.payload.pluginId) then t == s.tables && error == Some(WrongOwner)
    else if w.waitingForJob.None? then t == s.tables && error.None?
    else if !Expects(w, job) then t == s.tables && error == Some(Rejected(UnexpectedJob))
    else if Breaks(w.steps, w.currentIndex + 1) then t == s.tables && error.Some? && error.value.Rejected?
    else if !up then t == s.tables && error == Some(SaveFailed)
    else
      && error.None? && row.workflowId in t.instances && var next := t.instances[row.workflowId];
      && t == s.tables.(instances := s.tables.instances[row.workflowId := next]) && next.workflow.steps == w.steps
      && GoesTo(w.steps, w.currentIndex + 1, next.workflow.currentIndex)
      && Stamped(next, row.workflowId, row.pluginId, "job.result:" + TrimSpace(job.id), "job.result", row.createdAt,
                 now)
  }

  /** What a delivery computed, and what it leaves, as the hand-off sees it. */
  lemma HandsOverAs(s: RuntimeState, s': RuntimeState, row: Instance, job: Job, computed: Reply, now: Time, up: bool)
    requires job.status in {Done, Cancelled, Failed, Dead} && row.workflow.currentIndex <= |row.workflow.steps|
    requires row.workflow.waitingForJob.Some? ==> AtKind(row.workflow, CallJob)
    requires Delivers(row, TrimSpace(job.payload.pluginId), OutcomeOf(job), now, computed)
    requires TrimSpace(TrimSpace(job.payload.pluginId)) == TrimSpace(job.payload.pluginId)
    requires Leaves(s, s', row.workflowId, if computed.Ok? && !up then Err(SaveFailed) else computed)
    ensures HandsOver(s, s'.tables, row, job, now, up, Reported(if computed.Ok? && !up then Err(SaveFailed)
                                                                else computed))
  {
  }

  lemma DeliversExactly(s: RuntimeState, log: Log, job: Job, now: Time, up: bool)
    requires Drivable(s.tables) && now != ZERO_TIME && Owner(job.payload).Some?
    requires job.status in {Done, Cancelled, Failed, Dead} && !IsBlank(job.id)
    requires var id := Owner(job.payload).value.0;
             id in s.tables.instances && RowSound(id, s.tables.instances[id], log)
    ensures var (id, plugin) := Owner(job.payload).value;
            var (s', r) := Invoke(s, Deliver(id, plugin, OutcomeOf(job)), now, up);
            HandsOver(s, s'.tables, s.tables.instances[id], job, now, up, Reported(r))
  {
    var (id, plugin) := Owner(job.payload).value;
    var (c, found) := (Deliver(id, plugin, OutcomeOf(job)), Found(s.tables, id));
    OwnerTrimmed(job.payload);
    DeliveryExactly(s, id, plugin, OutcomeOf(job), log, now, up);
    DeliverExactly(found.value, id, plugin, OutcomeOf(job), log, now);
    HandsOverAs(s, Invoke(s, c, now, up).0, found.value, job, Compute(found, c, now), now, up);
  }

  /** A job without owner or outcome is ignored; any other one is delivered to the workflow that its payload names. */
  lemma HandOffExactly(s: RuntimeState, log: Log, job: Job, now: Time, up: bool)
    requires Drivable(s.tables) && now != ZERO_TIME
    requires var id := TrimSpace(job.payload.workflowId);
             id in s.tables.instances ==> RowSound(id, s.tables.instances[id], log)
    ensures var ((s', error), id) := (HandOff(s, job, now, up), TrimSpace(job.payload.workflowId));
            if IsBlank(job.payload.workflowId) || IsBlank(job.payload.pluginId)
               || job.status !in {Done, Cancelled, Failed, Dead} then s' == s && error == None
            else if IsBlank(job.id) then s' == s && error == Some(RuntimeError.MissingJobId)
            else if id !in s.tables.instances then s' == s && error == Some(NotFound)
            else HandsOver(s, s'.tables, s.tables.instances[id], job, now, up, error)
  {
    if Owner(job.payload).Some? && IsTerminal(job.status) {
      var (id, plugin) := Owner(job.payload).value;
      OwnerTrimmed(job.payload);
      DeliveryExactly(s, id, plugin, OutcomeOf(job), log, now, up);
      if !IsBlank(job.id) && id in s.tables.instances {
        DeliversExactly(s, log, job, now, up);
      }
    }
  }

  lemma HandedOver(s: RuntimeState, t: Tables, row: Instance, job: Job, now: Time, up: bool,
                   error: Option<RuntimeError>)
    requires HandsOver(s, t, row, job, now, up, error)
    requires row.workflowId in s.tables.instances && s.tables.instances[row.workflowId] == row
    ensures t != s.tables <==>
              && row.pluginId == TrimSpace(job.payload.pluginId) && Expects(row.workflow, job)
              && !Breaks(row.workflow.steps, row.workflow.currentIndex + 1) && up
  {
  }

  lemma BlankIsUnexpected(w: Workflow, results: seq<JobResult>, job: Job)
    requires Ran(w, results) && IsBlank(job.id)
    ensures !Expects(w, job)
  {
  }

  /** A hand-off moves the workflow exactly when the workflow belongs to the job's owner, waits for this job,
      and then runs into no broken step, and the database accepts the row. */
  lemma HandOffMoves(s: RuntimeState, log: Log, job: Job, now: Time, up: bool)
    requires Drivable(s.tables) && now != ZERO_TIME && Owner(job.payload).Some?
    requires var id := Owner(job.payload).value.0;
             id in s.tables.instances && RowSound(id, s.tables.instances[id], log)
    ensures var row := s.tables.instances[Owner(job.payload).value.0]; var w := row.workflow;
            HandOff(s, job, now, up).0.tables != s.tables <==>
              && job.status in {Done, Cancelled, Failed, Dead} && row.pluginId == TrimSpace(job.payload.pluginId)
              && Expects(w, job) && !Breaks(w.steps, w.currentIndex + 1) && up
  {
    HandOffExactly(s, log, job, now, up);
    var id := Owner(job.payload).value.0;
    if IsBlank(job.id) {
      BlankIsUnexpected(s.tables.instances[id].workflow, log.results, job);
    } else if job.status in {Done, Cancelled, Failed, Dead} {
      HandedOver(s, HandOff(s, job, now, up).0.tables, s.tables.instances[id], job, now, up,
                 HandOff(s, job, now, up).1);
    }
  }

  lemma Unexpected(w: Workflow, results: seq<JobResult>, job: Job)
    requires Ran(w, results) && w.waitingForJob.Some? && IsTerminal(job.status) && !Expects(w, job)
    requires TrimSpace(job.id) != ""
    ensures ResumeWithChildJob(w, ResultOf(OutcomeOf(job))) == Err(UnexpectedJob)
  {
    TrimSpaceFixes(job.id);
    TrimSpaceFixes(TrimSpace(job.id));
    TrimSpaceFixes(w.steps[w.currentIndex].value);
    TrimSpaceFixes(TrimSpace(w.steps[w.currentIndex].value));
  }

  /** A job that the workflow has heard already is refused; only a workflow that has gone on to wait for a
      different job makes the hand-off report that. */
  lemma LateHandOff(s: RuntimeState, log: Log, job: Job, now: Time, up: bool)
    requires Drivable(s.tables) && Owner(job.payload).Some? && Heard(log.results, TrimSpace(job.id))
    requires var (id, plugin) := Owner(job.payload).value;
             && id in s.tables.instances && RowSound(id, s.tables.instances[id], log)
             && s.tables.instances[id].pluginId == plugin && DistinctCalls(s.tables.instances[id].workflow.steps)
    ensures var (u, error) := HandOff(s, job, now, up);
            var w := s.tables.instances[Owner(job.payload).value.0].workflow;
            && u.tables == s.tables
            && error == if IsTerminal(job.status) && w.waitingForJob.Some? then Some(Rejected(UnexpectedJob)) else None
  {
    var id := Owner(job.payload).value.0;
    var w := s.tables.instances[id].workflow;
    var k :| 0 <= k < |log.results| && log.results[k].jobId == TrimSpace(job.id);
    var j := Answered(w, log.results, k);
    assert AnswersAt(w.steps, j, log.results);
    OwnerTrimmed(job.payload);
    TrimSpaceFixes(job.id);
    TrimSpaceFixes(TrimSpace(job.id));
    if w.waitingForJob.Some? && IsTerminal(job.status) {
      HeardIsOver(w, log.results, TrimSpace(job.id));
      Unexpected(w, log.results, job);
    }
  }

  /** The uninterrupted hand-off, as two events. */
  function HandOffEvents(w: World, job: Job, now: Time): seq<Event>
    requires Owner(job.payload).Some?
  {
    var (id, plugin) := Owner(job.payload).value;
    [Starts(Deliver(id, plugin, OutcomeOf(job)), now), Lands(|w.flights|, true)]
  }

  /** A hand-off that moves something begins well. */
  lemma HandOffBegins(s: RuntimeState, job: Job, now: Time)
    requires Drivable(s.tables) && Owner(job.payload).Some? && HandOff(s, job, now, true).0.tables != s.tables
    ensures var c := Deliver(Owner(job.payload).value.0, Owner(job.payload).value.1, OutcomeOf(job));
            Begin(s, c, now).1.Ok? && HandOff(s, job, now, true).0 == Invoke(s, c, now, true).0
  {
  }

  lemma HearsIt(w: Workflow, results: seq<JobResult>, job: Job)
    requires CurrentStep(w).Some?
    ensures Heard(results + [Accepted(w, ResultOf(OutcomeOf(job)))], TrimSpace(job.id))
  {
    TrimSpaceFixes(job.id);
    TrimSpaceFixes(TrimSpace(job.id));
    assert (results + [Accepted(w, ResultOf(OutcomeOf(job)))])[|results|].jobId == TrimSpace(job.id);
  }

  lemma TwoEvents(w: World, e: Event, f: Event)
    ensures Run(w, [e, f]) == Step(Step(w, e), f)
    ensures LegalRun(w, [e, f]) <==> Legal(w, e) && Legal(Step(w, e), f)
  {
    var next := Step(w, e);
    assert [e, f][1..] == [f] && [f][1..] == [];
    assert Run(w, [e, f]) == Run(next, [f]) == Run(Step(next, f), []);
    assert LegalRun(next, [f]) <==> Legal(next, f) && LegalRun(Step(next, f), []);
  }

  /** A call that begins well, as two events. */
  lemma CallRuns(w: World, c: Call, now: Time)
    requires Drivable(w.s.tables) && Fair(c) && now != ZERO_TIME && Begin(w.s, c, now).1.Ok?
    ensures var es := [Starts(c, now), Lands(|w.flights|, true)];
            && |Started(w, c, now).flights| == |w.flights| + 1
            && LegalRun(w, es) && Run(w, es) == Landed(Started(w, c, now), |w.flights|, true)
  {
    CallIsEvents(w, c, now, true);
    TwoEvents(w, Starts(c, now), Lands(|w.flights|, true));
  }

  /** The two events of a hand-off leave what the hand-off leaves, and a workflow that heard the job. */
  lemma HandOffIsHeard(w: World, job: Job, now: Time)
    requires Sound(w) && Drivable(w.s.tables) && now != ZERO_TIME && Owner(job.payload).Some?
    requires HandOff(w.s, job, now, true).0.tables != w.s.tables
    ensures var (w', id) := (Run(w, HandOffEvents(w, job, now)), Owner(job.payload).value.0);
            && LegalRun(w, HandOffEvents(w, job, now))
            && w'.s == HandOff(w.s, job, now, true).0 && w'.flights == w.flights
            && id in w.s.tables.instances && id in w'.s.tables.instances
            && w'.s.tables.instances[id].workflow.steps == w.s.tables.instances[id].workflow.steps
            && Heard(LogOf(w', id).results, TrimSpace(job.id))
  {
    var (id, plugin) := Owner(job.payload).value;
    var (c, n) := (Deliver(id, plugin, OutcomeOf(job)), |w.flights|);
    OwnerTrimmed(job.payload);
    HandOffBegins(w.s, job, now);
    DeliveryLands(w, id, plugin, OutcomeOf(job), now);
    CallRuns(w, c, now);
    HearsIt(w.s.tables.instances[id].workflow, LogOf(w, id).results, job);
  }

  /** Handing the same job over again, even with another outcome and however much later, changes nothing, as long as
      every call lands on the row that it loaded and the workflow is not started over. */
  lemma HandOffOnce(es: seq<Event>, later: seq<Event>, job: Job, again: Job, now: Time, time: Time, up: bool)
    requires LegalRun(GENESIS, es) && now != ZERO_TIME && Owner(job.payload).Some?
    requires again.payload == job.payload && again.id == job.id
    requires var (w, id) := (Run(GENESIS, es), Owner(job.payload).value.0);
             && Drivable(w.s.tables) && HandOff(w.s, job, now, true).0.tables != w.s.tables
             && (id in w.s.tables.instances ==> DistinctCalls(w.s.tables.instances[id].workflow.steps))
    requires var w := Run(Run(GENESIS, es), HandOffEvents(Run(GENESIS, es), job, now));
             && LegalRun(w, later) && CalmRun(w, later) && KeptOpen(w, later, Owner(job.payload).value.0)
    ensures var w := Run(Run(Run(GENESIS, es), HandOffEvents(Run(GENESIS, es), job, now)), later);
            Drivable(w.s.tables) && HandOff(w.s, again, time, up).0.tables == w.s.tables
  {
    GenesisSound();
    RunSound(GENESIS, es);
    HandOffIsHeard(Run(GENESIS, es), job, now);
    var id := Owner(job.payload).value.0;
    var w := Run(Run(GENESIS, es), HandOffEvents(Run(GENESIS, es), job, now));
    RunSound(Run(GENESIS, es), HandOffEvents(Run(GENESIS, es), job, now));
    OutcomesStay(w, later, id);
    HeardHandOff(Run(w, later), again, time, up);
  }

  lemma HeardHandOff(w: World, job: Job, now: Time, up: bool)
    requires Sound(w) && Owner(job.payload).Some?
    requires var id := Owner(job.payload).value.0;
             && id in w.s.tables.instances && DistinctCalls(w.s.tables.instances[id].workflow.steps)
             && Heard(LogOf(w, id).results, TrimSpace(job.id))
    ensures Drivable(w.s.tables) && HandOff(w.s, job, now, up).0.tables == w.s.tables
  {
    var (id, plugin) := Owner(job.payload).value;
    SoundDrives(w);
    OwnerTrimmed(job.payload);
    assert SoundAt(w, id);
    HeardIsRefused(w.s.tables.instances[id], LogOf(w, id), plugin, OutcomeOf(job), now);
  }
}
