/** What the workflow runtime promises across deliveries, recoveries and repeated restarts. */
module WorkflowLaws {
  import opened Base
  import opened Jobs
  import opened Workflows
  import opened WorkflowMeaning
  import opened WorkflowRuntimes
  import opened WorkflowRuns
  import opened WorkflowTimes
  import opened RestingWorkflows

  // ---- The first outcome of a child job wins ----

  /** No two steps call the same child job. */
  predicate DistinctCalls(steps: seq<WorkflowStep>) {
    forall i, j :: 0 <= i < j < |steps| && steps[i].kind.CallJob? && steps[j].kind.CallJob? ==>
      TrimSpace(steps[i].value) != TrimSpace(steps[j].value)
  }

  predicate Heard(results: seq<JobResult>, jobId: string) {
    exists k :: 0 <= k < |results| && results[k].jobId == jobId
  }

  /** A waiting workflow accepts exactly the terminal outcomes of the job that its current step names. */
  lemma AcceptsExactly(w: Workflow, results: seq<JobResult>, child: ChildOutcome)
    requires Ran(w, results)
    ensures ResumeWithChildJob(w, ResultOf(child)).Ok? <==>
              && w.waitingForJob.Some? && IsTerminal(child.status)
              && TrimSpace(child.jobId) == TrimSpace(w.steps[w.currentIndex].value)
  {
    TrimSpaceFixes(child.jobId);
    TrimSpaceFixes(TrimSpace(child.jobId));
    if w.waitingForJob.Some? {
      TrimSpaceFixes(w.steps[w.currentIndex].value);
      TrimSpaceFixes(TrimSpace(w.steps[w.currentIndex].value));
    }
  }

  /** The step that an accepted outcome answered. */
  lemma Answered(w: Workflow, results: seq<JobResult>, k: nat) returns (j: nat)
    requires Ran(w, results) && k < |results|
    ensures j < w.currentIndex && w.steps[j].kind.CallJob? && CallsBefore(w.steps, j) == k
    ensures results[k].jobId == TrimSpace(w.steps[j].value)
  {
    j := AnsweredStep(w.steps, w.currentIndex, k);
    assert AnswersAt(w.steps, j, results);
  }

  /** Once an outcome of a job was accepted, the current step waits for another one. */
  lemma HeardIsOver(w: Workflow, results: seq<JobResult>, jobId: string)
    requires Ran(w, results) && DistinctCalls(w.steps) && Heard(results, jobId) && w.waitingForJob.Some?
    ensures TrimSpace(w.steps[w.currentIndex].value) != jobId
  {
    var k :| 0 <= k < |results| && results[k].jobId == jobId;
    var j := Answered(w, results, k);
  }

  /** A row that heard a job refuses every further outcome of it. */
  lemma HeardIsRefused(row: Instance, log: Log, plugin: string, child: ChildOutcome, now: Time)
    requires RowSound(row.workflowId, row, log) && DistinctCalls(row.workflow.steps)
    requires Heard(log.results, TrimSpace(child.jobId))
    ensures DeliverOn(Some(row), plugin, ResultOf(child), now).Err?
  {
    AcceptsExactly(row.workflow, log.results, child);
    if row.workflow.waitingForJob.Some? {
      HeardIsOver(row.workflow, log.results, TrimSpace(child.jobId));
    }
  }

  /** No event of the history starts the workflow over. */
  ghost predicate KeptOpen(w: World, es: seq<Event>, id: string)
    decreases |es|
  {
    es != [] ==> !StartsOver(w, es[0], id) && KeptOpen(Step(w, es[0]), es[1..], id)
  }

  /** As long as every call lands on the row that it loaded, accepted outcomes stay accepted. */
  lemma {:induction false} OutcomesStay(w: World, es: seq<Event>, id: string)
    requires Sound(w) && LegalRun(w, es) && CalmRun(w, es) && KeptOpen(w, es, id) && id in w.s.tables.instances
    ensures var w' := Run(w, es);
            && Sound(w') && id in w'.s.tables.instances && LogOf(w, id).results <= LogOf(w', id).results
            && w'.s.tables.instances[id].workflow.steps == w.s.tables.instances[id].workflow.steps
            && w'.s.tables.instances[id].workflow.currentIndex >= w.s.tables.instances[id].workflow.currentIndex
    decreases |es|
  {
    if es != [] {
      StepSound(w, es[0]);
      StepMovesOn(w, es[0], id);
      OutcomesStay(Step(w, es[0]), es[1..], id);
    }
  }

  /** The first accepted outcome of a child job wins, in every history in which each call lands on the row that it
      loaded: the outcome stays, and a further delivery for that job is refused before it writes anything. */
  lemma FirstOutcomeWins(es: seq<Event>, later: seq<Event>, id: string, k: nat, workflowId: string, plugin: string,
                         child: ChildOutcome, now: Time)
    requires LegalRun(GENESIS, es) && id in Run(GENESIS, es).s.tables.instances && TrimSpace(workflowId) == id
    requires var w := Run(GENESIS, es); LegalRun(w, later) && CalmRun(w, later) && KeptOpen(w, later, id)
    requires var w := Run(GENESIS, es);
             && DistinctCalls(w.s.tables.instances[id].workflow.steps)
             && k < |LogOf(w, id).results| && LogOf(w, id).results[k].jobId == TrimSpace(child.jobId)
    ensures var (w, w') := (Run(GENESIS, es), Run(Run(GENESIS, es), later));
            && k < |LogOf(w', id).results| && LogOf(w', id).results[k] == LogOf(w, id).results[k]
            && Drivable(w'.s.tables)
            && var (u, r) := Begin(w'.s, Deliver(workflowId, plugin, child), now); r.Err? && u.tables == w'.s.tables
  {
    GenesisSound();
    RunSound(GENESIS, es);
    var w := Run(GENESIS, es);
    OutcomesStay(w, later, id);
    var w' := Run(w, later);
    SoundDrives(w');
    assert SoundAt(w', id);
    assert Heard(LogOf(w', id).results, TrimSpace(child.jobId));
    HeardIsRefused(w'.s.tables.instances[id], LogOf(w', id), TrimSpace(plugin), child, now);
  }

  lemma AnsweredApart(w: Workflow, results: seq<JobResult>, k: nat, l: nat)
    requires Ran(w, results) && DistinctCalls(w.steps) && k < l < |results|
    ensures results[k].jobId != results[l].jobId
  {
    var i := Answered(w, results, k);
    var j := Answered(w, results, l);
  }

  /** However calls interleave, the outcomes that made the stored value belong to different jobs. */
  lemma OutcomesDiffer(es: seq<Event>, id: string, k: nat, l: nat)
    requires LegalRun(GENESIS, es) && id in Run(GENESIS, es).s.tables.instances
    requires DistinctCalls(Run(GENESIS, es).s.tables.instances[id].workflow.steps)
    requires k < l < |LogOf(Run(GENESIS, es), id).results|
    ensures var results := LogOf(Run(GENESIS, es), id).results; results[k].jobId != results[l].jobId
  {
    GenesisSound();
    RunSound(GENESIS, es);
    var w := Run(GENESIS, es);
    assert SoundAt(w, id);
    AnsweredApart(w.s.tables.instances[id].workflow, LogOf(w, id).results, k, l);
  }
}
