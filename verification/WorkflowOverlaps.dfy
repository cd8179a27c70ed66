/** What is lost when calls on one workflow overlap: the runtime saves what it computed from the row that it loaded,
    whatever the row has become since. */
module WorkflowOverlaps {
  import opened Base
  import opened Jobs
  import opened Workflows
  import opened WorkflowMeaning
  import opened WorkflowRuntimes
  import opened WorkflowRuns

  /** An uninterrupted call is its two events. */
  lemma CallIsEvents(w: World, c: Call, now: Time, up: bool)
    requires Drivable(w.s.tables) && Sensible(c)
    ensures var (w1, (u, r)) := (Started(w, c, now), Invoke(w.s, c, now, up));
            if Begin(w.s, c, now).1.Ok?
            then |w1.flights| == |w.flights| + 1 && Landed(w1, |w.flights|, up).s == u
                 && Landed(w1, |w.flights|, up).flights == w.flights
            else w1.s == u && w1.flights == w.flights && r.Err?
  {
  }

  /** What a delivery that passes its checks has in flight. */
  lemma DeliveryFlies(w: World, workflowId: string, plugin: string, child: ChildOutcome, now: Time)
    requires Sound(w) && Drivable(w.s.tables) && now != ZERO_TIME
    requires Begin(w.s, Deliver(workflowId, plugin, child), now).1.Ok?
    ensures var (w', id, n) := (Started(w, Deliver(workflowId, plugin, child), now), TrimSpace(workflowId),
                                |w.flights|);
            && w'.s.tables == w.s.tables && w'.logs == w.logs && |w'.flights| == n + 1 && w'.flights[..n] == w.flights
            && Sound(w') && w'.flights[n].id == id && !w'.flights[n].write.started
            && id in w.s.tables.instances && w'.flights[n].write.instance.pluginId == w.s.tables.instances[id].pluginId
            && w'.flights[n].write.instance.workflow.steps == w.s.tables.instances[id].workflow.steps
            && CurrentStep(w.s.tables.instances[id].workflow).Some?
            && w'.flights[n].log.results
            == LogOf(w, id).results + [Accepted(w.s.tables.instances[id].workflow, ResultOf(child))]
  {
    var c := Deliver(workflowId, plugin, child);
    assert SoundAt(w, TrimSpace(workflowId));
    StepSound(w, Starts(c, now));
    DeliverComputes(Found(w.s.tables, TrimSpace(workflowId)), workflowId, plugin, child,
                    LogOf(w, TrimSpace(workflowId)), now);
  }

  /** An uninterrupted delivery that passes its checks is recorded. */
  lemma DeliveryLands(w: World, workflowId: string, plugin: string, child: ChildOutcome, now: Time)
    requires Sound(w) && Drivable(w.s.tables) && now != ZERO_TIME
    requires Begin(w.s, Deliver(workflowId, plugin, child), now).1.Ok?
    ensures var c := Deliver(workflowId, plugin, child);
            var (w', id) := (Landed(Started(w, c, now), |w.flights|, true), TrimSpace(workflowId));
            && |Started(w, c, now).flights| == |w.flights| + 1 && Sound(Started(w, c, now))
            && w'.s == Invoke(w.s, c, now, true).0 && w'.flights == w.flights
            && id in w.s.tables.instances && id in w'.s.tables.instances
            && w'.s.tables.instances[id].workflow.steps == w.s.tables.instances[id].workflow.steps
            && CurrentStep(w.s.tables.instances[id].workflow).Some?
            && LogOf(w', id).results
            == LogOf(w, id).results + [Accepted(w.s.tables.instances[id].workflow, ResultOf(child))]
  {
    var (c, n) := (Deliver(workflowId, plugin, child), |w.flights|);
    DeliveryFlies(w, workflowId, plugin, child, now);
    CallIsEvents(w, c, now, true);
    LandOverwrites(Started(w, c, now), n, true, TrimSpace(workflowId));
  }

  /** Two deliveries that loaded the same row are both saved, and the second save replaces the outcome that the first
      one recorded. */
  lemma OverlapLosesOutcome(w: World, workflowId: string, plugin: string, child: ChildOutcome, other: ChildOutcome,
                            now: Time, later: Time)
    requires Sound(w) && Drivable(w.s.tables) && now != ZERO_TIME && later != ZERO_TIME
    requires Begin(w.s, Deliver(workflowId, plugin, child), now).1.Ok?
    requires Begin(w.s, Deliver(workflowId, plugin, other), later).1.Ok?
    ensures var (id, n) := (TrimSpace(workflowId), |w.flights|);
            var both := Started(Started(w, Deliver(workflowId, plugin, child), now),
                                Deliver(workflowId, plugin, other), later);
            && |both.flights| == n + 2 && id in w.s.tables.instances
            && CurrentStep(w.s.tables.instances[id].workflow).Some?
            && var (v, results) := (w.s.tables.instances[id].workflow, LogOf(w, id).results);
            && LogOf(Landed(both, n, true), id).results == results + [Accepted(v, ResultOf(child))]
            && LogOf(Landed(Landed(both, n, true), n, true), id).results == results + [Accepted(v, ResultOf(other))]
  {
    var (id, n) := (TrimSpace(workflowId), |w.flights|);
    DeliveryFlies(w, workflowId, plugin, child, now);
    var one := Started(w, Deliver(workflowId, plugin, child), now);
    DeliveryFlies(one, workflowId, plugin, other, later);
    var both := Started(one, Deliver(workflowId, plugin, other), later);
    assert both.flights[n] == one.flights[n];
    LandOverwrites(both, n, true, id);
    var landed := Landed(both, n, true);
    assert landed.flights[n] == both.flights[n + 1];
    LandOverwrites(landed, n, true, id);
  }

  /** Whether the save of a call in flight replaces the stored row. */
  predicate Replaces(w: World, i: nat, up: bool)
    requires i < |w.flights|
  {
    var f := w.flights[i];
    up && (f.id in w.s.tables.instances ==> w.s.tables.instances[f.id].pluginId == f.write.instance.pluginId)
  }

  /** What a save loses, for every call in flight: the outcomes recorded in the row stay recorded exactly when the row
      is not replaced, or when the call starts a run and none was recorded, or when it continues one and none was
      recorded beyond those that it loaded, or just the one that it brings. */
  lemma OutcomesKeptExactly(w: World, i: nat, up: bool)
    requires Sound(w) && i < |w.flights| && w.flights[i].id in w.s.tables.instances
    ensures var (f, stored) := (w.flights[i], LogOf(w, w.flights[i].id).results);
            stored <= LogOf(Landed(w, i, up), f.id).results <==>
              || !Replaces(w, i, up)
              || if f.write.started then stored == []
                 else stored <= f.baseLog.results || stored == f.log.results
  {
    var f := w.flights[i];
    LandOverwrites(w, i, up, f.id);
    assert SoundAt(w, f.id);
  }

  // ---- A reachable run that loses an outcome ----

  /** A workflow that asks a child job and then waits for an event. */
  datatype Names = Names(id: string, plugin: string, job: string, event: string)

  predicate Tidy(s: string) {
    TrimSpace(s) == s != ""
  }

  predicate AllTidy(n: Names) {
    Tidy(n.id) && Tidy(n.plugin) && Tidy(n.job) && Tidy(n.event)
  }

  function Initial(n: Names): Workflow {
    NewWorkflow(n.id, [WorkflowStep(CallJob, n.job, n.job, 0), WorkflowStep(WaitEvent, n.event, n.event, 0)])
  }

  function OnEvent(n: Names): Call {
    Fire(Trigger(n.id, n.plugin, n.event, n.event), Initial(n))
  }

  function Report(n: Names, status: Status): Call {
    Deliver(n.id, n.plugin, ChildOutcome(n.job, status, NoReason, ""))
  }

  /** The row while it waits for the child. */
  function Asking(n: Names): Instance {
    Instance(n.id, n.plugin, WaitingJob, Initial(n).(waitingForJob := Some(CallJobState(n.job, n.job))),
             n.event, n.event, 1, 1)
  }

  /** The workflow that has just heard the child end with this status. */
  function Resumed(n: Names, status: Status): Workflow {
    var result := JobResult(n.job, n.job, status, NoReason, "");
    Initial(n).(currentIndex := 1, lastJobResult := Some(result), state := map[n.job := StateValue(result)])
  }

  /** The row that then waits for the event. */
  function Hearing(n: Names, status: Status): Instance {
    Instance(n.id, n.plugin, WaitingEvent, Resumed(n, status).(waitingFor := n.event),
             CheckpointId(n.job), "job.result", 1, 1)
  }

  /** The row after the event. */
  function Ended(n: Names, status: Status): Instance {
    Instance(n.id, n.plugin, Completed, Resumed(n, status).(currentIndex := 2, completed := true), n.event, n.event, 1,
             1)
  }

  lemma Driven(w: Workflow, next: Workflow)
    requires NamedWaits(w.steps) && TurnOf(w, 1) == Again(next) && TurnOf(next, 1).Halt?
    ensures DriveNamed(w, 1) == Ok(next)
  {
    NamedNeverStalls(w, 1);
    TurnMakesProgress(w, 1);
    assert Drive(next, 1) == Ok(next);
  }

  lemma AskingDriven(n: Names)
    requires AllTidy(n)
    ensures DriveNamed(Initial(n), 1) == Ok(Asking(n).workflow)
  {
    assert Advance(Initial(n), 1) == Ok(Asking(n).workflow);
    Driven(Initial(n), Asking(n).workflow);
  }

  lemma AskingComputed(n: Names)
    requires AllTidy(n)
    ensures Compute(None, OnEvent(n), 1) == Ok(Transition(Asking(n), true))
  {
    AskingDriven(n);
  }

  lemma HearingResumed(n: Names, status: Status)
    requires AllTidy(n) && IsTerminal(status)
    ensures ResumeWithChildJob(Asking(n).workflow, JobResult("", n.job, status, NoReason, "")) == Ok(Resumed(n, status))
  {
  }

  lemma HearingDriven(n: Names, status: Status)
    requires AllTidy(n)
    ensures DriveNamed(Resumed(n, status), 1) == Ok(Hearing(n, status).workflow)
  {
    assert Advance(Resumed(n, status), 1) == Ok(Hearing(n, status).workflow);
    Driven(Resumed(n, status), Hearing(n, status).workflow);
  }

  lemma HearingComputed(n: Names, status: Status)
    requires AllTidy(n) && IsTerminal(status)
    ensures Compute(Some(Asking(n)), Report(n, status), 1) == Ok(Transition(Hearing(n, status), false))
  {
    assert TrimSpace("") == "";
    HearingResumed(n, status);
    HearingDriven(n, status);
  }

  lemma EndedComputed(n: Names, status: Status)
    requires AllTidy(n)
    ensures Compute(Some(Hearing(n, status)), OnEvent(n), 1) == Ok(Transition(Ended(n, status), false))
  {
    var w := Ended(n, status).workflow;
    assert Wake(Hearing(n, status).workflow, n.event, 1) == Ok(w);
    NamedNeverStalls(w, 1);
  }

  /** The only row, and what the calls in flight are about to write. */
  predicate Shows(w: World, id: string, row: Option<Instance>, writes: seq<Transition>) {
    && w.s.tables.instances == (if row.Some? then map[id := row.value] else map[])
    && |w.flights| == |writes| && (row.Some? ==> NamedWaits(row.value.workflow.steps))
    && forall i :: 0 <= i < |writes| ==> w.flights[i].id == id && w.flights[i].write == writes[i]
  }

  lemma StartShows(w: World, row: Option<Instance>, writes: seq<Transition>, c: Call, write: Transition)
    requires Shows(w, Target(c), row, writes) && Fair(c) && CallError(c).None? && Compute(row, c, 1) == Ok(write)
    ensures Legal(w, Starts(c, 1)) && Shows(Step(w, Starts(c, 1)), Target(c), row, writes + [write])
  {
    assert Found(w.s.tables, Target(c)) == row;
  }

  lemma LandShows(w: World, id: string, row: Option<Instance>, writes: seq<Transition>, i: nat)
    requires Shows(w, id, row, writes) && i < |writes| && Keyed(id, writes[i].instance)
    requires NamedWaits(writes[i].instance.workflow.steps)
    requires row.Some? ==> row.value.pluginId == writes[i].instance.pluginId
    ensures Legal(w, Lands(i, true))
    ensures Shows(Step(w, Lands(i, true)), id, Some(writes[i].instance), writes[..i] + writes[i + 1..])
  {
    SaveWrites(w.s, writes[i].instance, writes[i].started, true);
  }

  lemma {:induction false} Extend(w: World, es: seq<Event>, e: Event)
    requires LegalRun(w, es) && Legal(Run(w, es), e)
    ensures LegalRun(w, es + [e]) && Run(w, es + [e]) == Step(Run(w, es), e)
    decreases |es|
  {
    if es == [] {
      assert [e][1..] == [];
    } else {
      Extend(Step(w, es[0]), es[1..], e);
      assert (es + [e])[1..] == es[1..] + [e];
    }
  }

  lemma ThenStarts(es: seq<Event>, row: Option<Instance>, writes: seq<Transition>, c: Call, write: Transition)
    requires LegalRun(GENESIS, es) && Shows(Run(GENESIS, es), Target(c), row, writes)
    requires Fair(c) && CallError(c).None? && Compute(row, c, 1) == Ok(write)
    ensures LegalRun(GENESIS, es + [Starts(c, 1)])
    ensures Shows(Run(GENESIS, es + [Starts(c, 1)]), Target(c), row, writes + [write])
  {
    StartShows(Run(GENESIS, es), row, writes, c, write);
    Extend(GENESIS, es, Starts(c, 1));
  }

  lemma ThenLands(es: seq<Event>, id: string, row: Option<Instance>, writes: seq<Transition>, i: nat)
    requires LegalRun(GENESIS, es) && Shows(Run(GENESIS, es), id, row, writes) && i < |writes|
    requires Keyed(id, writes[i].instance) && NamedWaits(writes[i].instance.workflow.steps)
    requires row.Some? ==> row.value.pluginId == writes[i].instance.pluginId
    ensures LegalRun(GENESIS, es + [Lands(i, true)])
    ensures Shows(Run(GENESIS, es + [Lands(i, true)]), id, Some(writes[i].instance), writes[..i] + writes[i + 1..])
  {
    LandShows(Run(GENESIS, es), id, row, writes, i);
    Extend(GENESIS, es, Lands(i, true));
  }

  /** Both reports have loaded the row that waits for the child. */
  function Overlap(n: Names): seq<Event> {
    [Starts(OnEvent(n), 1), Lands(0, true)] + [Starts(Report(n, Done), 1)] + [Starts(Report(n, Dead), 1)]
  }

  /** The first report was saved, and the workflow went on to its end. */
  function Settled(n: Names): seq<Event> {
    Overlap(n) + [Lands(0, true)] + [Starts(OnEvent(n), 1)] + [Lands(1, true)]
  }

  /** Two triggers both find no row, and the first one to be saved has heard its child. */
  function Doubled(n: Names): seq<Event> {
    [Starts(OnEvent(n), 1), Starts(OnEvent(n), 1), Lands(0, true)] + [Starts(Report(n, Done), 1)] + [Lands(1, true)]
  }

  lemma Proper(n: Names, status: Status)
    requires AllTidy(n)
    ensures Fair(OnEvent(n)) && Target(OnEvent(n)) == n.id && CallError(OnEvent(n)).None?
    ensures IsTerminal(status) ==>
              Fair(Report(n, status)) && Target(Report(n, status)) == n.id && CallError(Report(n, status)).None?
    ensures Keyed(n.id, Asking(n)) && Keyed(n.id, Hearing(n, status)) && Keyed(n.id, Ended(n, status))
  {
  }

  lemma AskingShows(n: Names)
    requires AllTidy(n)
    ensures var es := [Starts(OnEvent(n), 1), Lands(0, true)];
            LegalRun(GENESIS, es) && Shows(Run(GENESIS, es), n.id, Some(Asking(n)), [])
  {
    Proper(n, Done);
    AskingComputed(n);
    ThenStarts([], None, [], OnEvent(n), Transition(Asking(n), true));
    var es := [Starts(OnEvent(n), 1)];
    assert [] + es == es;
    ThenLands(es, n.id, None, [Transition(Asking(n), true)], 0);
    assert es + [Lands(0, true)] == [Starts(OnEvent(n), 1), Lands(0, true)];
  }

  lemma OverlapShows(n: Names)
    requires AllTidy(n)
    ensures LegalRun(GENESIS, Overlap(n))
    ensures Shows(Run(GENESIS, Overlap(n)), n.id, Some(Asking(n)),
                  [Transition(Hearing(n, Done), false), Transition(Hearing(n, Dead), false)])
  {
    Proper(n, Done);
    Proper(n, Dead);
    AskingShows(n);
    HearingComputed(n, Done);
    HearingComputed(n, Dead);
    var es := [Starts(OnEvent(n), 1), Lands(0, true)];
    ThenStarts(es, Some(Asking(n)), [], Report(n, Done), Transition(Hearing(n, Done), false));
    es := es + [Starts(Report(n, Done), 1)];
    ThenStarts(es, Some(Asking(n)), [Transition(Hearing(n, Done), false)], Report(n, Dead),
               Transition(Hearing(n, Dead), false));
  }

  /** A child job is reported Done; the workflow records that, goes on and completes. A second report of the same job,
      which had loaded the row before, then lands: the workflow is back at its wait, and holds the other outcome. */
  lemma LostOutcome(n: Names)
    requires AllTidy(n)
    ensures LegalRun(GENESIS, Settled(n) + [Lands(0, true)])
    ensures Found(Run(GENESIS, Settled(n)).s.tables, n.id) == Some(Ended(n, Done))
    ensures Found(Run(GENESIS, Settled(n) + [Lands(0, true)]).s.tables, n.id) == Some(Hearing(n, Dead))
  {
    Proper(n, Done);
    Proper(n, Dead);
    EndedComputed(n, Done);
    OverlapShows(n);
    var first, second := Transition(Hearing(n, Done), false), Transition(Hearing(n, Dead), false);
    var third := Transition(Ended(n, Done), false);
    var es := Overlap(n);
    ThenLands(es, n.id, Some(Asking(n)), [first, second], 0);
    es := es + [Lands(0, true)];
    ThenStarts(es, Some(first.instance), [second], OnEvent(n), third);
    es := es + [Starts(OnEvent(n), 1)];
    ThenLands(es, n.id, Some(first.instance), [second, third], 1);
    es := es + [Lands(1, true)];
    ThenLands(es, n.id, Some(third.instance), [second], 0);
  }

  lemma BothStart(n: Names)
    requires AllTidy(n)
    ensures var es := [Starts(OnEvent(n), 1), Starts(OnEvent(n), 1), Lands(0, true)];
            LegalRun(GENESIS, es) && Shows(Run(GENESIS, es), n.id, Some(Asking(n)), [Transition(Asking(n), true)])
  {
    Proper(n, Done);
    AskingComputed(n);
    var start := Transition(Asking(n), true);
    ThenStarts([], None, [], OnEvent(n), start);
    var es := [Starts(OnEvent(n), 1)];
    assert [] + es == es;
    ThenStarts(es, None, [start], OnEvent(n), start);
    es := es + [Starts(OnEvent(n), 1)];
    ThenLands(es, n.id, None, [start, start], 0);
    assert es + [Lands(0, true)] == [Starts(OnEvent(n), 1), Starts(OnEvent(n), 1), Lands(0, true)];
  }

  /** The first triggers of a workflow overlap: the run that one of them started goes on and hears its child, and then
      the other one is saved, starts it over and drops the outcome, although the run was never completed. */
  lemma LateStart(n: Names)
    requires AllTidy(n)
    ensures LegalRun(GENESIS, Doubled(n) + [Lands(0, true)])
    ensures Found(Run(GENESIS, Doubled(n)).s.tables, n.id) == Some(Hearing(n, Done))
    ensures Found(Run(GENESIS, Doubled(n) + [Lands(0, true)]).s.tables, n.id) == Some(Asking(n))
    ensures !Hearing(n, Done).workflow.completed
  {
    Proper(n, Done);
    HearingComputed(n, Done);
    BothStart(n);
    var start, heard := Transition(Asking(n), true), Transition(Hearing(n, Done), false);
    var es := [Starts(OnEvent(n), 1), Starts(OnEvent(n), 1), Lands(0, true)];
    ThenStarts(es, Some(start.instance), [start], Report(n, Done), heard);
    es := es + [Starts(Report(n, Done), 1)];
    ThenLands(es, n.id, Some(start.instance), [start, heard], 1);
    es := es + [Lands(1, true)];
    ThenLands(es, n.id, Some(heard.instance), [start], 0);
  }
}
