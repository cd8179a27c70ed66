/** Whole histories of stored workflows: calls whose two halves interleave, failed writes and restarts. */
module WorkflowRuns {
  import opened Base
  import opened Jobs
  import opened Workflows
  import opened WorkflowMeaning
  import opened WorkflowRuntimes
  import opened WorkflowTimes
  import opened RestingWorkflows

  /** A call between its load and its save: what it is about to write, with the log of that value, and the row that it
      loaded, with the log of that one. */
  datatype Flight = Flight(id: string, write: Transition, log: Log, base: Option<Instance>, baseLog: Log)

  /** `logs` remembers, for the stored value of each workflow, what that value was fed. */
  datatype World = World(s: RuntimeState, logs: map<string, Log>, flights: seq<Flight>)

  const GENESIS := World(RuntimeState(map[], Tables(map[], map[])), map[], [])
  const NO_LOG := Log(ZERO_TIME, [], [], [])

  /** A call starts by loading its row and lands by saving it; a restart loses the calls in flight. */
  datatype Event =
    | Starts(call: Call, now: Time)
    | Lands(flight: nat, up: bool)
    | ChangesJobs(jobs: map<string, Job>)
    | Reboots(listing: seq<Instance>, now: Time, failing: set<string>)

  ghost predicate IsListing(listing: seq<Instance>, rows: map<string, Instance>) {
    && (forall i, j :: 0 <= i < j < |listing| ==> listing[i].workflowId != listing[j].workflowId)
    && (forall i :: 0 <= i < |listing| ==> listing[i].workflowId in rows && rows[listing[i].workflowId] == listing[i])
  }

  predicate Fair(c: Call) {
    c.Fire? ==> c.initial == NewWorkflow(c.initial.id, c.initial.steps) && NamedWaits(c.initial.steps)
  }

  ghost predicate Legal(w: World, e: Event) {
    match e
    case Starts(call, now) => Fair(call) && now != ZERO_TIME
    case Lands(flight, _) => flight < |w.flights|
    case ChangesJobs(jobs) => forall id :: id in jobs ==> jobs[id].id == id
    case Reboots(listing, now, _) => IsListing(listing, w.s.tables.instances) && now != ZERO_TIME
  }

  function LogOf(w: World, id: string): Log {
    if id in w.logs then w.logs[id] else NO_LOG
  }

  /** What a call feeds to the run that it continues. */
  function Fed(c: Call, found: Option<Instance>, log: Log): Log {
    if found.None? then log else
    match c
    case Fire(trigger, _) =>
      if found.value.workflow.waitingFor == "" then log
      else log.(events := log.events + [TrimSpace(trigger.eventType)])
    case Deliver(_, _, child) =>
      if CurrentStep(found.value.workflow).None? then log
      else log.(results := log.results + [Accepted(found.value.workflow, ResultOf(child))])
  }

  /** The log of what a call is about to write. */
  function LogAfter(c: Call, found: Option<Instance>, log: Log, write: Transition, now: Time): Log {
    Stamp(if write.started then Log(now, [], [], []) else Fed(c, found, log), write.instance.workflow.currentIndex, now)
  }

  function Without(flights: seq<Flight>, i: nat): seq<Flight>
    requires i < |flights|
  {
    flights[..i] + flights[i + 1..]
  }

  /** The child outcome that a recovery pass over one row makes up for. */
  function Recalled(jobs: map<string, Job>, w: Workflow): seq<JobResult> {
    match Missed(jobs, w)
    case Some(child) => if CurrentStep(w).Some? then [Accepted(w, MissedResult(child))] else []
    case None => []
  }

  function RecalledLog(jobs: map<string, Job>, row: Instance, log: Log, restored: Instance, at: Time): Log {
    Stamp(log.(results := log.results + Recalled(jobs, row.workflow)), restored.workflow.currentIndex, at)
  }

  /** A recovery pass over one row, with its log. */
  ghost function Recovered(w: World, row: Instance, at: Time, up: bool): Option<World>
    requires NamedWaits(row.workflow.steps)
  {
    match RestoreRow(w.s.tables, row, at, up)
    case None => None
    case Some((restored, u)) =>
      var log := RecalledLog(w.s.tables.jobs, row, LogOf(w, row.workflowId), restored, at);
      Some(w.(s := w.s.(tables := u), logs := w.logs[row.workflowId := log]))
  }

  ghost function Swept(w: World, listing: seq<Instance>, at: Time, failing: set<string>): World
    requires forall i :: 0 <= i < |listing| ==> NamedWaits(listing[i].workflow.steps)
    decreases |listing|
  {
    if listing == [] then w else
    match Recovered(w, listing[0], at, listing[0].workflowId !in failing)
    case None => w
    case Some(next) => Swept(next, listing[1..], at, failing)
  }

  ghost function Started(w: World, c: Call, now: Time): World
    requires Drivable(w.s.tables) && Sensible(c)
  {
    var (s, r) := Begin(w.s, c, now);
    var id, found := Target(c), Found(w.s.tables, Target(c));
    match r
    case Err(_) => w.(s := s)
    case Ok(write) =>
      w.(s := s,
         flights := w.flights + [Flight(id, write, LogAfter(c, found, LogOf(w, id), write, now), found, LogOf(w, id))])
  }

  function Landed(w: World, i: nat, up: bool): World
    requires i < |w.flights|
  {
    var f := w.flights[i];
    var (s, r) := Save(w.s, f.write.instance, f.write.started, up);
    World(s, if r.Ok? then w.logs[f.id := f.log] else w.logs, Without(w.flights, i))
  }

  /** One event. A world that cannot be driven stays put, but no reachable world is like that. */
  ghost function Step(w: World, e: Event): World {
    if !Drivable(w.s.tables) || !Legal(w, e) then w else
    match e
    case Starts(call, now) => Started(w, call, now)
    case Lands(flight, up) => Landed(w, flight, up)
    case ChangesJobs(jobs) => w.(s := w.s.(tables := w.s.tables.(jobs := jobs)))
    case Reboots(listing, now, failing) =>
      World(Restore(RuntimeState(map[], w.s.tables), listing, now, failing).0, Swept(w, listing, now, failing).logs, [])
  }

  ghost function Run(w: World, es: seq<Event>): World
    decreases |es|
  {
    if es == [] then w else Run(Step(w, es[0]), es[1..])
  }

  ghost predicate LegalRun(w: World, es: seq<Event>)
    decreases |es|
  {
    es != [] ==> Legal(w, es[0]) && LegalRun(Step(w, es[0]), es[1..])
  }

  // ---- What one event writes ----

  /** A row under a tidy key. */
  predicate Keyed(id: string, row: Instance) {
    && row.workflowId == row.workflow.id == id && TrimSpace(id) == id != ""
    && TrimSpace(row.pluginId) == row.pluginId != ""
    && row.createdAt != ZERO_TIME && row.updatedAt != ZERO_TIME
  }

  /** A stored instance is what its steps and its log say, at rest, and its status says why. */
  ghost predicate RowSound(id: string, row: Instance, log: Log) {
    && Keyed(id, row)
    && Ran(row.workflow, log.results) && Timed(row.workflow, log)
    && row.status == StatusOf(row.workflow) && !row.status.Ready?
  }

  lemma SaveWrites(s: RuntimeState, instance: Instance, started: bool, up: bool)
    requires Keyed(instance.workflowId, instance)
    ensures var (u, r) := Save(s, instance, started, up); var id := instance.workflowId;
            && u.tables.jobs == s.tables.jobs
            && u.tables.instances == (if r.Ok? then s.tables.instances[id := instance] else s.tables.instances)
            && (r.Ok? <==> up && (id in s.tables.instances ==> s.tables.instances[id].pluginId == instance.pluginId))
            && (r.Ok? ==> r.value == Transition(instance, started))
  {
    assert instance.(workflowId := instance.workflowId, pluginId := instance.pluginId) == instance;
    assert instance.(workflow := instance.workflow.(id := instance.workflowId)) == instance;
  }

  lemma DrivenRow(w: Workflow, log: Log, now: Time)
    requires Ran(w, log.results) && Timed(w, log) && Current(w, log, now) && DriveNamed(w, now).Ok?
    ensures var v := DriveNamed(w, now).value;
            && Ran(v, log.results) && Timed(v, Stamp(log, v.currentIndex, now)) && !StatusOf(v).Ready?
            && TurnOf(v, now).Halt? && v.steps == w.steps && v.id == w.id && v.currentIndex >= w.currentIndex
  {
    NamedNeverStalls(w, now);
    DriveRan(w, log.results, now);
    DriveTimed(w, log, now);
    DrivenIsBlocked(w, log.results, now);
  }

  /** The same run, further on, with at most one more outcome. */
  predicate Later(before: Instance, log: Log, after: Instance, log': Log) {
    && after.workflow.steps == before.workflow.steps && after.workflow.currentIndex >= before.workflow.currentIndex
    && log'.start == log.start && log.passed <= log'.passed
    && log.results <= log'.results && |log'.results| <= |log.results| + 1 && log.events <= log'.events
  }

  /** What a call is about to write is a sound row, made of the row that it loaded. */
  ghost predicate FlightSound(f: Flight) {
    && RowSound(f.id, f.write.instance, f.log)
    && if f.write.started
       then (f.base.Some? ==> f.base.value.workflow.completed) && f.log.results == []
       else f.base.Some? && Later(f.base.value, f.baseLog, f.write.instance, f.log)
  }

  /** A resumed workflow is about to be written as a sound row further on. */
  lemma ContinueRow(current: Instance, resumed: Workflow, log: Log, eventId: string, eventType: string, now: Time)
    requires Keyed(current.workflowId, current) && now != ZERO_TIME && resumed.id == current.workflowId
    requires Ran(resumed, log.results) && Timed(resumed, log) && Current(resumed, log, now)
    ensures var r := Continue(current, resumed, eventId, eventType, now);
            r.Ok? ==>
              var row := r.value.instance;
              && RowSound(current.workflowId, row, Stamp(log, row.workflow.currentIndex, now)) && !r.value.started
              && row.workflow.steps == resumed.steps && row.workflow.currentIndex >= resumed.currentIndex
  {
    if DriveNamed(resumed, now).Ok? {
      DrivenRow(resumed, log, now);
    }
  }

  lemma StartRow(t: Trigger, initial: Workflow, now: Time)
    requires TriggerError(t).None? && TrimSpace(t.workflowId) == t.workflowId && TrimSpace(t.pluginId) == t.pluginId
    requires initial == NewWorkflow(initial.id, initial.steps) && NamedWaits(initial.steps) && now != ZERO_TIME
    ensures var r := Start(t, initial, now);
            r.Ok? ==>
              var row := r.value.instance;
              RowSound(t.workflowId, row, Stamp(Log(now, [], [], []), row.workflow.currentIndex, now))
                && r.value.started
  {
    if initial.steps != [] {
      var named := initial.(id := t.workflowId);
      NewWorkflowRan(t.workflowId, initial.steps);
      if DriveNamed(named, now).Ok? {
        DrivenRow(named, Log(now, [], [], []), now);
      }
    }
  }

  lemma WokenRan(w: Workflow, log: Log, eventType: string, now: Time)
    requires Ran(w, log.results) && Timed(w, log) && Wake(w, eventType, now).Ok?
    ensures var v := Wake(w, eventType, now).value;
            var fed := if w.waitingFor == "" then log else log.(events := log.events + [eventType]);
            var log' := Stamp(fed, v.currentIndex, now);
            && v.currentIndex == w.currentIndex + 1 && v.steps == w.steps && v.id == w.id
            && Ran(v, log.results) && Timed(v, log') && Current(v, log', now)
  {
    var v := Wake(w, eventType, now).value;
    PassRan(w, log.results);
    assert v == Pass(w.(waitingFor := "", sleepingUntil := None));
    if w.waitingFor == "" {
      PassTimed(w, log, v, now);
    } else {
      EventTimed(w, log, v, now);
    }
  }

  lemma AcceptedRow(w: Workflow, log: Log, result: JobResult, now: Time)
    requires Ran(w, log.results) && Timed(w, log) && ResumeWithChildJob(w, result).Ok?
    ensures CurrentStep(w).Some?
    ensures var v := ResumeWithChildJob(w, result).value;
            var log' := Stamp(log.(results := log.results + [Accepted(w, result)]), v.currentIndex, now);
            && Ran(v, log'.results) && v.id == w.id && v.steps == w.steps && v.currentIndex == w.currentIndex + 1
            && Timed(v, log') && Current(v, log', now)
  {
    ChildRan(w, log.results, result);
    PassTimed(w, log.(results := log.results + [Accepted(w, result)]), ResumeWithChildJob(w, result).value, now);
  }

  /** What a trigger computes from a sound row. */
  lemma FireComputes(found: Option<Instance>, trigger: Trigger, initial: Workflow, log: Log, now: Time)
    requires Fair(Fire(trigger, initial)) && now != ZERO_TIME && TriggerError(TrimTrigger(trigger)).None?
    requires found.Some? ==> RowSound(Target(Fire(trigger, initial)), found.value, log)
    ensures var c := Fire(trigger, initial);
            var r := Compute(found, c, now);
            r.Ok? ==> FlightSound(Flight(Target(c), r.value, LogAfter(c, found, log, r.value, now), found, log))
  {
    var t := TrimTrigger(trigger);
    TrimSpaceFixes(trigger.workflowId);
    TrimSpaceFixes(t.workflowId);
    TrimSpaceFixes(trigger.pluginId);
    TrimSpaceFixes(t.pluginId);
    if found.Some? && found.value.pluginId != t.pluginId {
    } else if found.None? || found.value.workflow.completed {
      StartRow(t, initial, now);
    } else {
      var w := found.value.workflow;
      if Wake(w, t.eventType, now).Ok? {
        var woken := Wake(w, t.eventType, now).value;
        var fed := Fed(Fire(trigger, initial), found, log);
        WokenRan(w, log, t.eventType, now);
        ContinueRow(found.value, woken, Stamp(fed, woken.currentIndex, now), t.eventId, t.eventType, now);
        StampOn(log, fed, woken.currentIndex, Compute(found, Fire(trigger, initial), now), now);
      }
    }
  }

  /** Stamping up to the resumed step and then up to where the drive ended is stamping once. */
  lemma StampOn(log: Log, fed: Log, i: nat, r: Reply, now: Time)
    requires |log.passed| <= i && fed == log.(results := fed.results, events := fed.events)
    requires log.results <= fed.results && log.events <= fed.events
    requires r.Ok? ==> i <= r.value.instance.workflow.currentIndex
    ensures r.Ok? ==>
              var log' := Stamp(fed, r.value.instance.workflow.currentIndex, now);
              && Stamp(Stamp(fed, i, now), r.value.instance.workflow.currentIndex, now) == log'
              && log'.start == log.start && log.passed <= log'.passed
              && log'.results == fed.results && log'.events == fed.events
  {
    if r.Ok? {
      StampTwice(fed, i, r.value.instance.workflow.currentIndex, now);
    }
  }

  /** What a delivery computes from a sound row: it logs exactly that outcome and moves strictly forward. */
  lemma DeliverComputes(found: Option<Instance>, workflowId: string, pluginId: string, child: ChildOutcome,
                        log: Log, now: Time)
    requires now != ZERO_TIME && (found.Some? ==> RowSound(TrimSpace(workflowId), found.value, log))
    ensures var c := Deliver(workflowId, pluginId, child);
            var r := Compute(found, c, now);
            r.Ok? ==>
              && FlightSound(Flight(Target(c), r.value, LogAfter(c, found, log, r.value, now), found, log))
              && !r.value.started && CurrentStep(found.value.workflow).Some?
              && LogAfter(c, found, log, r.value, now).results == log.results
                 + [Accepted(found.value.workflow, ResultOf(child))]
              && r.value.instance.workflow.currentIndex > found.value.workflow.currentIndex
  {
    var c, result := Deliver(workflowId, pluginId, child), ResultOf(child);
    if Compute(found, c, now).Ok? {
      var w := found.value.workflow;
      var resumed := ResumeWithChildJob(w, result).value;
      AcceptedRow(w, log, result, now);
      var fed := log.(results := log.results + [Accepted(w, result)]);
      ContinueRow(found.value, resumed, Stamp(fed, resumed.currentIndex, now), CheckpointId(result.jobId),
                  "job.result", now);
      StampOn(log, fed, resumed.currentIndex, Compute(found, c, now), now);
    }
  }

  /** A recovery pass over one sound row yields a sound row at rest, with the missed outcome logged. */
  lemma RestoredRow(jobs: map<string, Job>, id: string, row: Instance, log: Log, at: Time)
    requires RowSound(id, row, log) && at != ZERO_TIME && RestoreInstance(jobs, row, at).Ok?
    ensures var restored := RestoreInstance(jobs, row, at).value; var log' := RecalledLog(jobs, row, log, restored, at);
            && RowSound(id, restored, log') && Later(row, log, restored, log')
            && restored.pluginId == row.pluginId && TurnOf(restored.workflow, at).Halt?
            && (Missed(jobs, row.workflow).Some? ==> restored.workflow.currentIndex > row.workflow.currentIndex)
  {
    assert row.(workflowId := id, pluginId := row.pluginId, workflow := row.workflow.(id := id)) == row;
    var missed, restored := Missed(jobs, row.workflow), RestoreInstance(jobs, row, at).value;
    var end := restored.workflow.currentIndex;
    if missed.Some? {
      var result := MissedResult(missed.value);
      AcceptedRow(row.workflow, log, result, at);
      var fed := log.(results := log.results + [Accepted(row.workflow, result)]);
      var resumed := ResumeWithChildJob(row.workflow, result).value;
      DrivenRow(resumed, Stamp(fed, resumed.currentIndex, at), at);
      StampTwice(fed, resumed.currentIndex, end, at);
    } else {
      assert log.(results := log.results + Recalled(jobs, row.workflow)) == log;
      DrivenRow(row.workflow, log, at);
    }
  }

  // ---- Rows over whole runs ----

  ghost predicate SoundAt(w: World, id: string) {
    id in w.s.tables.instances ==> RowSound(id, w.s.tables.instances[id], LogOf(w, id))
  }

  /** The row is as it was, or further on in the same run. */
  predicate OnwardAt(w: World, w': World, id: string) {
    id in w.s.tables.instances ==>
      && id in w'.s.tables.instances
      && (SameRow(w, w', id) || Later(w.s.tables.instances[id], LogOf(w, id), w'.s.tables.instances[id], LogOf(w', id)))
  }

  /** The event lands a new run under this id. */
  predicate StartsOver(w: World, e: Event, id: string) {
    e.Lands? && e.flight < |w.flights| && w.flights[e.flight].id == id && w.flights[e.flight].write.started
  }

  /** Two worlds with the same row and log under an id. */
  predicate SameRow(w: World, w': World, id: string) {
    Found(w'.s.tables, id) == Found(w.s.tables, id) && LogOf(w', id) == LogOf(w, id)
  }

  /** The row of a call in flight is still as the call loaded it. */
  predicate Alone(w: World, f: Flight) {
    Found(w.s.tables, f.id) == f.base && LogOf(w, f.id) == f.baseLog
  }

  /** An event that lands a call does so on the row that the call loaded. */
  predicate Calm(w: World, e: Event) {
    e.Lands? && e.flight < |w.flights| ==> Alone(w, w.flights[e.flight])
  }

  ghost predicate CalmRun(w: World, es: seq<Event>)
    decreases |es|
  {
    es != [] ==> Calm(w, es[0]) && CalmRun(Step(w, es[0]), es[1..])
  }

  lemma SameRowKeeps(w: World, w': World, id: string)
    requires SameRow(w, w', id)
    ensures SoundAt(w, id) <==> SoundAt(w', id)
    ensures OnwardAt(w, w', id)
  {
  }

  /** Landing replaces the stored row and its log by what is in flight, whatever is stored by then; an unsuccessful
      save and any other row are left alone. */
  lemma LandOverwrites(w: World, i: nat, up: bool, id: string)
    requires i < |w.flights| && FlightSound(w.flights[i])
    ensures var f, w' := w.flights[i], Landed(w, i, up); var owned := f.id in w.s.tables.instances;
            && w'.s.tables.jobs == w.s.tables.jobs
            && if up && id == f.id && (owned ==> w.s.tables.instances[f.id].pluginId == f.write.instance.pluginId)
               then Found(w'.s.tables, id) == Some(f.write.instance) && LogOf(w', id) == f.log
               else SameRow(w, w', id)
  {
    SaveWrites(w.s, w.flights[i].write.instance, w.flights[i].write.started, up);
  }

  lemma LandAt(w: World, i: nat, up: bool, id: string)
    requires i < |w.flights| && FlightSound(w.flights[i]) && SoundAt(w, id)
    ensures SoundAt(Landed(w, i, up), id)
    ensures Alone(w, w.flights[i]) && !StartsOver(w, Lands(i, up), id) ==> OnwardAt(w, Landed(w, i, up), id)
    ensures Alone(w, w.flights[i]) && StartsOver(w, Lands(i, up), id) && id in w.s.tables.instances ==>
              w.s.tables.instances[id].workflow.completed
  {
    LandOverwrites(w, i, up, id);
    var f, w' := w.flights[i], Landed(w, i, up);
    if SameRow(w, w', id) {
      SameRowKeeps(w, w', id);
    }
  }

  // ---- Calls in flight ----

  /** Starting a call writes no row, and what it puts in flight is sound. */
  lemma StartedSound(w: World, c: Call, now: Time)
    requires Drivable(w.s.tables) && Fair(c) && now != ZERO_TIME && SoundAt(w, Target(c))
    ensures var w' := Started(w, c, now);
            && w'.s.tables == w.s.tables && w'.logs == w.logs
            && (w'.flights == w.flights
                || (w'.flights == w.flights + [w'.flights[|w.flights|]] && FlightSound(w'.flights[|w.flights|])))
  {
    if Begin(w.s, c, now).1.Ok? {
      var id := Target(c);
      match c
      case Fire(trigger, initial) => FireComputes(Found(w.s.tables, id), trigger, initial, LogOf(w, id), now);
      case Deliver(workflowId, pluginId, child) =>
        DeliverComputes(Found(w.s.tables, id), workflowId, pluginId, child, LogOf(w, id), now);
    }
  }

  // ---- Recovery ----

  lemma {:induction false} DriveKeepsName(w: Workflow, now: Time)
    requires !Stalls(w, now) && Drive(w, now).Ok?
    ensures Drive(w, now).value.id == w.id && Drive(w, now).value.steps == w.steps
    decreases Rank(w, now)
  {
    if TurnOf(w, now).Again? {
      TurnMakesProgress(w, now);
      DriveKeepsName(TurnOf(w, now).next, now);
    }
  }

  lemma RestoredKeyed(jobs: map<string, Job>, row: Instance, at: Time)
    requires NamedWaits(row.workflow.steps) && Keyed(row.workflowId, row) && RestoreInstance(jobs, row, at).Ok?
    ensures Keyed(row.workflowId, RestoreInstance(jobs, row, at).value)
    ensures RestoreInstance(jobs, row, at).value.workflow.steps == row.workflow.steps
  {
    assert row.(workflowId := row.workflowId, pluginId := row.pluginId,
                workflow := row.workflow.(id := row.workflowId)) == row;
    var missed := Missed(jobs, row.workflow);
    var w := if missed.Some? then ResumeWithChildJob(row.workflow, MissedResult(missed.value)).value else row.workflow;
    NamedNeverStalls(w, at);
    DriveKeepsName(w, at);
  }

  lemma RecoveredRow(w: World, row: Instance, at: Time, up: bool)
    requires NamedWaits(row.workflow.steps) && Keyed(row.workflowId, row) && Recovered(w, row, at, up).Some?
    ensures var next := Recovered(w, row, at, up).value; var rows := w.s.tables.instances;
            && RestoreInstance(w.s.tables.jobs, row, at).Ok?
            && var restored := RestoreInstance(w.s.tables.jobs, row, at).value;
            && next.s.tables == w.s.tables.(instances := rows[row.workflowId := restored])
            && next.logs == w.logs[row.workflowId := RecalledLog(w.s.tables.jobs, row, LogOf(w, row.workflowId),
               restored, at)]
  {
    RestoredKeyed(w.s.tables.jobs, row, at);
    var restored := RestoreInstance(w.s.tables.jobs, row, at).value;
    assert restored.(workflowId := row.workflowId, pluginId := row.pluginId,
                     workflow := restored.workflow.(id := row.workflowId)) == restored;
  }

  predicate Lists(listing: seq<Instance>, id: string) {
    exists i :: 0 <= i < |listing| && listing[i].workflowId == id
  }

  predicate Recoverable(listing: seq<Instance>) {
    forall i :: 0 <= i < |listing| ==> NamedWaits(listing[i].workflow.steps) && Keyed(listing[i].workflowId, listing[i])
  }

  lemma RecoveredAt(w: World, row: Instance, at: Time, up: bool)
    requires SoundAt(w, row.workflowId) && at != ZERO_TIME
    requires row.workflowId in w.s.tables.instances && w.s.tables.instances[row.workflowId] == row
    ensures NamedWaits(row.workflow.steps)
    ensures Recovered(w, row, at, up).Some? ==>
              var next := Recovered(w, row, at, up).value;
              SoundAt(next, row.workflowId) && OnwardAt(w, next, row.workflowId)
  {
    if Recovered(w, row, at, up).Some? {
      RecoveredRow(w, row, at, up);
      RestoredRow(w.s.tables.jobs, row.workflowId, row, LogOf(w, row.workflowId), at);
    }
  }

  lemma TailListing(w: World, listing: seq<Instance>, at: Time, up: bool)
    requires listing != [] && Recoverable(listing) && IsListing(listing, w.s.tables.instances)
    requires Recovered(w, listing[0], at, up).Some?
    ensures var next := Recovered(w, listing[0], at, up).value;
            && IsListing(listing[1..], next.s.tables.instances) && Recoverable(listing[1..])
            && !Lists(listing[1..], listing[0].workflowId)
            && forall id :: id != listing[0].workflowId ==> SameRow(w, next, id)
  {
    RecoveredRow(w, listing[0], at, up);
  }

  /** A recovery sweep leaves alone the rows that it does not list. */
  lemma {:induction false} SweptElsewhere(w: World, listing: seq<Instance>, at: Time, failing: set<string>, id: string)
    requires Recoverable(listing) && IsListing(listing, w.s.tables.instances) && !Lists(listing, id)
    ensures SameRow(w, Swept(w, listing, at, failing), id)
    decreases |listing|
  {
    if listing != [] {
      var up := listing[0].workflowId !in failing;
      if Recovered(w, listing[0], at, up).Some? {
        TailListing(w, listing, at, up);
        assert forall i :: 0 <= i < |listing[1..]| ==> listing[1..][i] == listing[i + 1];
        SweptElsewhere(Recovered(w, listing[0], at, up).value, listing[1..], at, failing, id);
      }
    }
  }

  /** Progress up to a world in which the row did not change since. */
  lemma ForwardOn(v: World, w: World, w': World, id: string)
    requires SameRow(w, w', id)
    ensures SoundAt(w, id) ==> SoundAt(w', id)
    ensures OnwardAt(v, w, id) ==> OnwardAt(v, w', id)
    ensures OnwardAt(w', v, id) ==> OnwardAt(w, v, id)
  {
  }

  /** The first listed row, if it could be recovered, stays as it was recovered. */
  lemma {:induction false} SweptFirst(w: World, listing: seq<Instance>, at: Time, failing: set<string>, up: bool)
    requires Recoverable(listing) && IsListing(listing, w.s.tables.instances) && at != ZERO_TIME
    requires listing != [] && SoundAt(w, listing[0].workflowId)
    requires up == (listing[0].workflowId !in failing) && Recovered(w, listing[0], at, up).Some?
    ensures var (w', id) := (Swept(w, listing, at, failing), listing[0].workflowId);
            SoundAt(w', id) && OnwardAt(w, w', id)
  {
    var id := listing[0].workflowId;
    var next := Recovered(w, listing[0], at, up).value;
    TailListing(w, listing, at, up);
    RecoveredAt(w, listing[0], at, up);
    SweptElsewhere(next, listing[1..], at, failing, id);
    ForwardOn(w, next, Swept(next, listing[1..], at, failing), id);
  }

  /** A recovery sweep, finished or cut short, moves each listed row forward at most once. */
  lemma {:induction false} SweptAt(w: World, listing: seq<Instance>, at: Time, failing: set<string>, id: string)
    requires Recoverable(listing) && IsListing(listing, w.s.tables.instances) && SoundAt(w, id) && at != ZERO_TIME
    ensures var w' := Swept(w, listing, at, failing); SoundAt(w', id) && OnwardAt(w, w', id)
    decreases |listing|, 0
  {
    if listing != [] {
      var up := listing[0].workflowId !in failing;
      if Recovered(w, listing[0], at, up).Some? {
        var next := Recovered(w, listing[0], at, up).value;
        if listing[0].workflowId == id {
          SweptFirst(w, listing, at, failing, up);
        } else {
          TailListing(w, listing, at, up);
          SweptLater(w, next, listing[1..], at, failing, id);
        }
      }
    }
  }

  /** The same for the rows behind the first one. */
  lemma {:induction false} SweptLater(w: World, next: World, listing: seq<Instance>, at: Time, failing: set<string>,
                                      id: string)
    requires Recoverable(listing) && IsListing(listing, next.s.tables.instances) && SoundAt(w, id) && at != ZERO_TIME
    requires SameRow(w, next, id)
    ensures var w' := Swept(next, listing, at, failing); SoundAt(w', id) && OnwardAt(w, w', id)
    decreases |listing|, 1
  {
    SameRowKeeps(w, next, id);
    SweptAt(next, listing, at, failing, id);
    ForwardOn(Swept(next, listing, at, failing), w, next, id);
  }

  lemma {:induction false} SweptTables(w: World, listing: seq<Instance>, at: Time, failing: set<string>,
                                       cache: map<string, Instance>)
    requires Recoverable(listing)
    ensures Swept(w, listing, at, failing).s.tables == SweepInstances(cache, w.s.tables, listing, at, failing).tables
    ensures Swept(w, listing, at, failing).s.tables.jobs == w.s.tables.jobs
    decreases |listing|
  {
    if listing != [] {
      var row := listing[0];
      match RestoreRow(w.s.tables, row, at, row.workflowId !in failing)
      case None =>
      case Some((restored, u)) =>
        SweptTables(Recovered(w, row, at, row.workflowId !in failing).value, listing[1..], at, failing,
                    cache[restored.workflowId := restored]);
    }
  }

  // ---- The invariant ----

  /** Every row says what its log made of it, and every call in flight would write such a row. */
  ghost predicate Sound(w: World) {
    && (forall id :: SoundAt(w, id))
    && (forall i :: 0 <= i < |w.flights| ==> FlightSound(w.flights[i]))
    && (forall id :: id in w.s.tables.jobs ==> w.s.tables.jobs[id].id == id)
  }

  lemma SoundDrives(w: World)
    requires forall id :: SoundAt(w, id)
    ensures Drivable(w.s.tables) && forall id :: id in w.s.tables.instances ==> Keyed(id, w.s.tables.instances[id])
  {
    forall id | id in w.s.tables.instances
      ensures NamedWaits(w.s.tables.instances[id].workflow.steps) && Keyed(id, w.s.tables.instances[id]) {
      assert SoundAt(w, id);
    }
  }

  lemma RebootAt(w: World, e: Event, id: string)
    requires Drivable(w.s.tables) && (forall k :: k in w.s.tables.instances ==> Keyed(k, w.s.tables.instances[k]))
    requires Legal(w, e) && e.Reboots? && SoundAt(w, id)
    ensures SoundAt(Step(w, e), id) && OnwardAt(w, Step(w, e), id) && Step(w, e).s.tables.jobs == w.s.tables.jobs
  {
    SweptAt(w, e.listing, e.now, e.failing, id);
    SweptTables(w, e.listing, e.now, e.failing, map[]);
    ForwardOn(w, Swept(w, e.listing, e.now, e.failing), Step(w, e), id);
  }

  lemma StepAt(w: World, e: Event, id: string)
    requires Sound(w) && Legal(w, e) && Drivable(w.s.tables)
    ensures SoundAt(Step(w, e), id)
    ensures Calm(w, e) && !StartsOver(w, e, id) ==> OnwardAt(w, Step(w, e), id)
    ensures Calm(w, e) && StartsOver(w, e, id) && id in w.s.tables.instances ==>
            w.s.tables.instances[id].workflow.completed
  {
    assert SoundAt(w, id);
    match e
    case Starts(c, now) =>
      assert SoundAt(w, Target(c));
      StartedSound(w, c, now);
      SameRowKeeps(w, Step(w, e), id);
    case Lands(i, up) => LandAt(w, i, up, id);
    case ChangesJobs(_) => SameRowKeeps(w, Step(w, e), id);
    case Reboots(_, _, _) =>
      SoundDrives(w);
      RebootAt(w, e, id);
  }

  lemma StepElse(w: World, e: Event)
    requires Sound(w) && Legal(w, e) && Drivable(w.s.tables)
    ensures forall i :: 0 <= i < |Step(w, e).flights| ==> FlightSound(Step(w, e).flights[i])
    ensures forall id :: id in Step(w, e).s.tables.jobs ==> Step(w, e).s.tables.jobs[id].id == id
  {
    match e
    case Starts(c, now) =>
      assert SoundAt(w, Target(c));
      StartedSound(w, c, now);
    case Lands(i, up) => LandOverwrites(w, i, up, "");
    case ChangesJobs(_) =>
    case Reboots(listing, now, failing) =>
      SoundDrives(w);
      SweptTables(w, listing, now, failing, map[]);
  }

  /** Every event keeps every row and every call in flight sound. */
  lemma StepSound(w: World, e: Event)
    requires Sound(w) && Legal(w, e)
    ensures Drivable(w.s.tables) && Sound(Step(w, e))
  {
    SoundDrives(w);
    forall id ensures SoundAt(Step(w, e), id) {
      StepAt(w, e, id);
    }
    StepElse(w, e);
  }

  /** Unless a call lands on a row that was written since it loaded it, no row moves back: it stays, goes on in the same
      run with at most one more outcome, or is started over, and that only once it is completed. */
  lemma StepMovesOn(w: World, e: Event, id: string)
    requires Sound(w) && Legal(w, e) && Calm(w, e) && id in w.s.tables.instances
    ensures OnwardAt(w, Step(w, e), id) || (StartsOver(w, e, id) && w.s.tables.instances[id].workflow.completed)
    ensures !StartsOver(w, e, id) ==> OnwardAt(w, Step(w, e), id)
  {
    SoundDrives(w);
    StepAt(w, e, id);
  }

  lemma StartedAlone(w: World, c: Call, now: Time, f: Flight)
    requires Sound(w) && Drivable(w.s.tables) && Fair(c) && now != ZERO_TIME
    ensures var w' := Started(w, c, now);
            && (Alone(w, f) ==> Alone(w', f))
            && forall i :: |w.flights| <= i < |w'.flights| ==> Alone(w', w'.flights[i])
  {
    assert SoundAt(w, Target(c));
    StartedSound(w, c, now);
  }

  /** A call has its row to itself when it starts, and until another write of that row, a landing or a recovery. */
  lemma AloneUntilWritten(w: World, e: Event, f: Flight)
    requires Sound(w) && Legal(w, e) && !e.Reboots?
    requires e.Lands? ==> w.flights[e.flight].id != f.id || !e.up
    ensures Alone(w, f) ==> Alone(Step(w, e), f)
    ensures e.Starts? ==> forall i ::
            |w.flights| <= i < |Step(w, e).flights| ==> Alone(Step(w, e), Step(w, e).flights[i])
  {
    SoundDrives(w);
    match e
    case Starts(c, now) => StartedAlone(w, c, now, f);
    case Lands(i, up) => LandOverwrites(w, i, up, f.id);
    case ChangesJobs(_) =>
  }

  lemma {:induction false} RunSound(w: World, es: seq<Event>)
    requires Sound(w) && LegalRun(w, es)
    ensures Sound(Run(w, es)) && Drivable(Run(w, es).s.tables)
    decreases |es|
  {
    if es == [] {
      SoundDrives(w);
    } else {
      StepSound(w, es[0]);
      RunSound(Step(w, es[0]), es[1..]);
    }
  }

  lemma GenesisSound()
    ensures Sound(GENESIS)
  {
  }

  /** Why a workflow rests at step `i`. */
  predicate RestsFor(steps: seq<WorkflowStep>, i: nat, status: RuntimeStatus)
    requires i <= |steps|
  {
    if i == |steps| then status == Completed
    else
      match steps[i].kind
      case WaitEvent => status == WaitingEvent && steps[i].value != ""
      case CallJob => status == WaitingJob
      case Sleep => status == Sleeping
      case _ => false
  }

  /** Whatever happens to an empty store, in whatever order calls load and save, each stored workflow is the one value
      that its steps, its position and its log allow: it holds in each field what they say, and its sleeps were slept
      through. */
  lemma ReachableWorkflow(es: seq<Event>, id: string)
    requires LegalRun(GENESIS, es) && id in Run(GENESIS, es).s.tables.instances
    ensures var w := Run(GENESIS, es); var (row, log) := (w.s.tables.instances[id], LogOf(w, id));
            var v := row.workflow;
            && v.currentIndex <= |v.steps| && |log.passed| == v.currentIndex
            && |log.results| == CallsBefore(v.steps, v.currentIndex)
            && v == AtRest(id, v.steps, v.currentIndex, log)
            && log.events == EventsBefore(v.steps, v.currentIndex)
            && SleptThrough(v.steps, log) && Answers(v.steps, v.currentIndex, log.results)
            && row.workflowId == id && RestsFor(v.steps, v.currentIndex, row.status) && HoldsExactly(v, log)
  {
    GenesisSound();
    RunSound(GENESIS, es);
    var w := Run(GENESIS, es);
    assert SoundAt(w, id);
    RestingIs(w.s.tables.instances[id].workflow, LogOf(w, id));
    RestingHolds(w.s.tables.instances[id].workflow, LogOf(w, id));
  }
}
