/** What holds of the job queue over every history. */
module QueueLaws {
  import opened Base
  import opened Jobs
  import opened JobStores
  import opened QueueSpec
  import opened QueueRuns
  import opened JobQueues

  // ---- Agreement of memory, table, dead list and leases ----

  /** In every reachable state memory equals the job table; a job is Running exactly while it holds a lease,
      which runs for the configured time from the last heartbeat; and it is Dead exactly when it occurs,
      with its current value, once in the dead list. */
  lemma ReachableQueue(cfg: Config, es: seq<Event>)
    requires LegalRun(cfg, GENESIS, es)
    ensures var w := Run(cfg, GENESIS, es);
            && (w.alive ==> w.s.jobs == w.s.tables.rows)
            && (forall id :: id in w.s.jobs ==>
                  var job := w.s.jobs[id];
                  && job.id == id && job.retryCount <= job.maxRetries
                  && (job.status.Running? <==> job.leaseAcquiredAt.Some?)
                  && (job.status.Running? <==> job.heartbeatAt.Some?)
                  && (job.status.Running? <==> job.leaseExpiresAt.Some?)
                  && (job.status.Running? ==>
                        && job.leaseAcquiredAt.value <= job.heartbeatAt.value <= w.clock
                        && job.leaseExpiresAt.value == job.heartbeatAt.value + cfg.leaseTTL)
                  && (job.status.Dead? <==> job in w.s.dead))
            && (forall i, j :: 0 <= i < j < |w.s.dead| ==> w.s.dead[i].id != w.s.dead[j].id)
            && (forall job :: job in w.s.dead ==> job.id in w.s.jobs && w.s.jobs[job.id] == job)
  {
    RunKeepsHealthy(cfg, GENESIS, es);
    var w := Run(cfg, GENESIS, es);
    forall id | id in w.s.jobs ensures w.s.jobs[id].status.Dead? <==> w.s.jobs[id] in w.s.dead {
      assert Shape(cfg, w.s.jobs[id], w.clock);
      if w.s.jobs[id].status.Dead? {
        assert id in DeadRows(w.s.tables.rows);
      }
    }
  }

  // ---- Restart ----

  lemma {:induction false} QuietSweep(t: Tables, listing: seq<Job>, at: Time, failing: set<string>)
    requires forall i :: 0 <= i < |listing| ==> !listing[i].status.Running?
    ensures SweepRows(t, listing, at, failing) == Sweep(t, true) && RecoveredAll(listing, at) == listing
    decreases |listing|
  {
    if listing != [] {
      QuietSweep(t, listing[1..], at, failing);
    }
  }

  /** A finished restart leaves nothing running, and another one after it changes nothing. */
  lemma RestartTwice(cfg: Config, w: World, first: Event, second: Event)
    requires Healthy(cfg, w) && Legal(w, first) && first.op.Boot? && Step(cfg, w, first).alive
    requires second.op.Boot? && second.op.listing == RecoveredAll(first.op.listing, first.now)
    requires second.now >= first.now
    ensures var w1, w2 := Step(cfg, w, first), Step(cfg, Step(cfg, w, first), second);
            && Legal(w1, second) && w2.alive && w2.s == w1.s
            && (forall id :: id in w1.s.jobs ==> !w1.s.jobs[id].status.Running?)
            && w1.s.jobs == RecoveredRows(w.s.tables.rows, first.now)
  {
    RestartRebuilds(cfg, w, first.op.listing, first.now, first.op.failing);
    RecoveredListing(w.s.tables.rows, first.op.listing, first.now);
    RestoredMemory(w.s.tables.rows, first.op.listing, first.now);
    var w1 := Step(cfg, w, first);
    forall i | 0 <= i < |second.op.listing| ensures !second.op.listing[i].status.Running? {
      assert second.op.listing[i].id in w1.s.jobs;
    }
    QuietSweep(w1.s.tables, second.op.listing, second.now, second.op.failing);
  }

  /** The recovery snapshot counts every listed row under its new status exactly once. */
  lemma SnapshotAddsUp(r: Recovery, listing: seq<Job>, at: Time)
    requires Summarizes(r, listing, at)
    requires forall job :: job in RecoveredAll(listing, at) ==> ValidJob(job) && !job.status.Blank?
    ensures Counted(r.statusCounts, Pending) + Counted(r.statusCounts, Running) + Counted(r.statusCounts, Retrying)
            + Counted(r.statusCounts, Paused) + Counted(r.statusCounts, Cancelled) + Counted(r.statusCounts, Failed)
            + Counted(r.statusCounts, Dead) + Counted(r.statusCounts, Done) == r.totalJobs == |listing|
    ensures Counted(r.statusCounts, Dead) == r.deadJobs && Counted(r.statusCounts, Retrying) == r.retriedJobs
  {
    StatusCountsAddUp(RecoveredAll(listing, at));
  }

  // ---- How often a job may run ----

  /** Attempts a job still has, one of them already spent while it runs. */
  function Credit(job: Job): int {
    match job.status
    case Pending => job.maxRetries - job.retryCount + 1
    case Retrying => job.maxRetries - job.retryCount + 1
    case Paused => job.maxRetries - job.retryCount + 1
    case Running => job.maxRetries - job.retryCount
    case _ => 0
  }

  function Row(w: World, id: string): Option<Job> {
    if id in w.s.tables.rows then Some(w.s.tables.rows[id]) else None
  }

  predicate HasStatus(row: Option<Job>, status: Status) {
    row.Some? && row.value.status == status
  }

  function One(b: bool): nat {
    if b then 1 else 0
  }

  /** How many events of the run move the job into Running. */
  function Starts(cfg: Config, w: World, es: seq<Event>, id: string): nat
    decreases |es|
  {
    if es == [] then 0 else
    var next := Step(cfg, w, es[0]);
    One(HasStatus(Row(next, id), Running) && !HasStatus(Row(w, id), Running)) + Starts(cfg, next, es[1..], id)
  }

  /** How many events of the run take the job out of the dead-letter list. */
  function Revivals(cfg: Config, w: World, es: seq<Event>, id: string): nat
    decreases |es|
  {
    if es == [] then 0 else
    var next := Step(cfg, w, es[0]);
    One(HasStatus(Row(w, id), Dead) && !HasStatus(Row(next, id), Dead)) + Revivals(cfg, next, es[1..], id)
  }

  lemma DecidePays(cfg: Config, job: Job, request: Request, clock: Time, now: Time)
    requires Shape(cfg, job, clock) && clock <= now && now > ZERO_TIME
    ensures match Decide(cfg, job, request, now)
            case Some(after) => Pays(job, after)
            case None => true
  {
    match request
    case Fail(reason) => assert Decide(cfg, job, request, now) == AfterFailure(job, reason, ExecutionReason(job), now);
    case FailWith(reason, code) => assert Decide(cfg, job, request, now) == AfterFailure(job, reason, code, now);
    case Timeout => assert Decide(cfg, job, request, now) == AfterFailure(job, "timeout", TimedOut, now);
    case _ =>
  }

  /** One change of a record, paid for. */
  predicate Pays(job: Job, after: Job) {
    One(after.status.Running? && !job.status.Running?) + Credit(after)
    <= Credit(job) + One(job.status.Dead? && !after.status.Dead?)
  }

  lemma RecoveryPays(cfg: Config, job: Job, clock: Time, now: Time)
    requires Shape(cfg, job, clock)
    ensures Pays(job, Recovered(job, now)) && Pays(job, job)
  {
  }

  /** An operation either leaves the job table alone or replaces the one row it decided on. */
  lemma PerformWrites(cfg: Config, w: World, target: string, request: Request, now: Time, up: bool)
    requires Healthy(cfg, w) && w.alive && w.clock <= now && now > ZERO_TIME
    ensures var rows, rows' := w.s.tables.rows, Perform(cfg, w.s, target, request, now, up).0.tables.rows;
            || rows' == rows
            || (target in rows && Decide(cfg, rows[target], request, now).Some?
                && rows' == rows[target := Decide(cfg, rows[target], request, now).value])
  {
    if target in w.s.jobs {
      DecideKeepsShape(cfg, w.s.jobs[target], request, w.clock, now);
      var decided := Decide(cfg, w.s.jobs[target], request, now);
      if decided.Some? {
        PersistWritesRow(w.s.tables, request, decided.value, up);
      }
    }
  }

  /** What one event may do to a stored row: nothing, what was asked of it, or recovery. */
  lemma RowAfterStep(cfg: Config, w: World, e: Event, id: string)
    requires Healthy(cfg, w) && Legal(w, e) && id in w.s.tables.rows
    ensures var row, rows' := w.s.tables.rows[id], Step(cfg, w, e).s.tables.rows;
            && id in rows'
            && (|| rows'[id] == row
                || (e.op.Boot? && rows'[id] == Recovered(row, e.now))
                || (e.op.Ask? && w.alive && Decide(cfg, row, e.op.request, e.now) == Some(rows'[id])))
  {
    if e.op.Boot? {
      RestartRebuilds(cfg, w, e.op.listing, e.now, e.op.failing);
    } else if w.alive && e.op.Ask? {
      PerformWrites(cfg, w, e.op.id, e.op.request, e.now, e.up);
    }
  }

  lemma StepPays(cfg: Config, w: World, e: Event, id: string)
    requires Healthy(cfg, w) && Legal(w, e) && id in w.s.tables.rows
    ensures id in Step(cfg, w, e).s.tables.rows && Pays(w.s.tables.rows[id], Step(cfg, w, e).s.tables.rows[id])
  {
    var row := w.s.tables.rows[id];
    RowAfterStep(cfg, w, e, id);
    RecoveryPays(cfg, row, w.clock, e.now);
    if e.op.Ask? {
      DecidePays(cfg, row, e.op.request, w.clock, e.now);
    }
  }

  /** Conservation: starts plus what is left never exceed the credit plus the dead-letter retries. */
  lemma {:induction false} CreditIsConserved(cfg: Config, w: World, es: seq<Event>, id: string)
    requires Healthy(cfg, w) && LegalRun(cfg, w, es) && id in w.s.tables.rows
    ensures var final := Run(cfg, w, es);
            && id in final.s.tables.rows
            && Starts(cfg, w, es, id) + Credit(final.s.tables.rows[id]) <= Credit(w.s.tables.rows[id])
               + Revivals(cfg, w, es, id)
    decreases |es|
  {
    if es != [] {
      StepPays(cfg, w, es[0], id);
      StepKeepsHealthy(cfg, w, es[0]);
      CreditIsConserved(cfg, Step(cfg, w, es[0]), es[1..], id);
    }
  }

  /** An accepted job starts at most once, plus once for each retry left to it, plus once per dead-letter retry,
      whatever happens afterwards: failures, pauses, failed writes, crashes and restarts. */
  lemma RetryBudget(cfg: Config, before: seq<Event>, submit: Event, after: seq<Event>)
    requires LegalRun(cfg, GENESIS, before) && submit.op.Submit?
    requires var w := Run(cfg, GENESIS, before); var next := Step(cfg, w, submit); var id := submit.op.job.id;
             Legal(w, submit) && Row(w, id).None? && Row(next, id).Some? && LegalRun(cfg, next, after)
    ensures var next := Step(cfg, Run(cfg, GENESIS, before), submit); var job := submit.op.job;
            Starts(cfg, next, after, job.id) <= (job.maxRetries - job.retryCount) + 1
              + Revivals(cfg, next, after, job.id)
  {
    RunKeepsHealthy(cfg, GENESIS, before);
    var w := Run(cfg, GENESIS, before);
    StepKeepsHealthy(cfg, w, submit);
    var next := Step(cfg, w, submit);
    CreditIsConserved(cfg, next, after, submit.op.job.id);
    var final := Run(cfg, next, after);
    RunKeepsHealthy(cfg, next, after);
    assert Shape(cfg, final.s.tables.rows[submit.op.job.id], final.clock);
  }

  // ---- What each request does to a reachable record ----

  /** Which requests the queue accepts. A failure report is not confined to runs: it also takes a paused job with
      retries left back to Retrying, and buries a waiting job whose budget is spent. */
  lemma AcceptedExactly(cfg: Config, job: Job, request: Request, clock: Time, now: Time)
    requires Shape(cfg, job, clock) && clock <= now && now > ZERO_TIME
    ensures Decide(cfg, job, request, now).Some? <==>
              match request
              case Heartbeat => job.status.Running?
              case Complete => job.status.Running?
              case MarkRunning => Waiting(job)
              case Retry => Waiting(job)
              case Pause => Waiting(job)
              case Cancel => Waiting(job)
              case Resume => job.status.Paused?
              case RetryDeadLetter => job.status.Dead?
              case _ =>
                job.status.Running? || (if job.retryCount < job.maxRetries then job.status.Paused? else Waiting(job))
  {
  }

  predicate Reports(request: Request) {
    request.Fail? || request.FailWith? || request.Timeout?
  }

  /** What an accepted request other than a failure report leaves: every field it does not name is as before. */
  lemma AfterRequest(cfg: Config, job: Job, request: Request, clock: Time, now: Time)
    requires Shape(cfg, job, clock) && clock <= now && now > ZERO_TIME && Decide(cfg, job, request, now).Some?
    requires !Reports(request)
    ensures var after := Decide(cfg, job, request, now).value;
            match request
            case Heartbeat => after == job.(heartbeatAt := Some(now), leaseExpiresAt := Some(now + cfg.leaseTTL))
            case MarkRunning => after == Claimed(cfg, job, now)
            case Retry => after == Claimed(cfg, job, now)
            case Complete => after == job.(status := Done, lastError := "", finishedAt := Some(now), workerId := "",
                                           leaseAcquiredAt := None, leaseExpiresAt := None, heartbeatAt := None)
            case Cancel => after == job.(status := Cancelled, lastError := "", nextRunAt := None,
                                         finishedAt := Some(now))
            case RetryDeadLetter => after == job.(status := Pending, lastError := "", reasonCode := NoReason,
                                                  startedAt := None,
                                                  finishedAt := None, nextRunAt := None, deadLetter := false)
            case Pause => after == job.(status := Paused)
            case Resume => after == job.(status := if IsSet(job.nextRunAt) then Retrying else Pending)
            case _ => true
  {
    assert TrimSpace("") == "";
  }

  /** What an accepted failure report leaves: a retry counted only for a run, or a dead letter once the budget is
      spent. */
  lemma AfterReport(cfg: Config, job: Job, reason: string, code: ReasonCode, clock: Time, now: Time)
    requires Shape(cfg, job, clock) && clock <= now && now > ZERO_TIME && AfterFailure(job, reason, code, now).Some?
    ensures var after := AfterFailure(job, reason, code, now).value;
            && Unleased(after) && (after.status.Retrying? || after.status.Dead?)
            && (after.status.Dead? <==> job.retryCount == job.maxRetries)
            && after.retryCount == job.retryCount + One(job.status.Running? && after.status.Retrying?)
            && after.finishedAt == (if after.status.Dead? then Some(now) else job.finishedAt)
            && after.startedAt == job.startedAt
            && after.reasonCode == (if after.status.Dead? then DeadReason(code) else code)
  {
  }

  lemma RunOne(cfg: Config, w: World, e: Event)
    requires Legal(w, e)
    ensures LegalRun(cfg, w, [e]) && Run(cfg, w, [e]) == Step(cfg, w, e)
  {
    assert [e][1..] == [];
    assert Run(cfg, w, [e]) == Run(cfg, Step(cfg, w, e), []);
  }

  lemma RunTwo(cfg: Config, w: World, e: Event, f: Event)
    requires Legal(w, e) && Legal(Step(cfg, w, e), f)
    ensures LegalRun(cfg, w, [e, f]) && Run(cfg, w, [e, f]) == Step(cfg, Step(cfg, w, e), f)
  {
    RunOne(cfg, Step(cfg, w, e), f);
    assert [e, f][1..] == [f];
  }

  /** A queue that holds one job, which is not dead. */
  function Alone(job: Job, now: Time): World {
    World(true, State(map[job.id := job], [], Tables(map[job.id := job], map[])), now)
  }

  lemma SubmittedAlone(cfg: Config, job: Job, now: Time)
    requires ValidJob(job) && Untouched(job) && job.status.Pending? && now > ZERO_TIME
    ensures Legal(GENESIS, Event(now, Submit(job), true))
    ensures Step(cfg, GENESIS, Event(now, Submit(job), true)) == Alone(job, now)
  {
  }

  lemma AskedAlone(cfg: Config, job: Job, request: Request, after: Job, now: Time)
    requires ValidJob(job) && now > ZERO_TIME && !request.RetryDeadLetter?
    requires Decide(cfg, job, request, now) == Some(after) && after.id == job.id && ValidJob(after)
    requires !after.status.Dead?
    ensures Legal(Alone(job, now), Event(now, Ask(job.id, request), true))
    ensures Step(cfg, Alone(job, now), Event(now, Ask(job.id, request), true)) == Alone(after, now)
  {
    assert map[job.id := job][job.id := after] == map[job.id := after];
  }

  /** The same job once paused, and once its failure was reported. */
  lemma PausedThenFailed(cfg: Config, job: Job, now: Time, reason: string) returns (paused: Job, failed: Job)
    requires ValidJob(job) && Untouched(job) && job.status.Pending? && now > ZERO_TIME
    requires job.retryCount < job.maxRetries
    requires !IsBlank(reason)
    ensures Decide(cfg, job, Pause, now) == Some(paused) && paused.id == job.id && ValidJob(paused)
    ensures paused.status.Paused?
    ensures Decide(cfg, paused, Fail(reason), now) == Some(failed) && failed.id == job.id && ValidJob(failed)
    ensures failed.status.Retrying? && failed.retryCount == job.retryCount && failed.lastError == reason
    ensures failed.nextRunAt == Some(now + Backoff(job.retryCount + 1))
  {
    paused := AfterRelease(job, Paused, now).value;
    failed := AfterFailure(paused, reason, ExecutionReason(paused), now).value;
  }

  /** A job that was submitted and paused takes a failure report: it waits as a retry, and no retry is counted. */
  lemma PausedTakesReport(cfg: Config, job: Job, now: Time, reason: string)
    requires ValidJob(job) && Untouched(job) && job.status.Pending? && now > ZERO_TIME
    requires job.retryCount < job.maxRetries
    requires !IsBlank(reason)
    ensures var es := [Event(now, Submit(job), true), Event(now, Ask(job.id, Pause), true),
                       Event(now, Ask(job.id, Fail(reason)), true)];
            var row := Row(Run(cfg, GENESIS, es), job.id);
            && LegalRun(cfg, GENESIS, es) && HasStatus(Row(Run(cfg, GENESIS, es[..2]), job.id), Paused)
            && HasStatus(row, Retrying) && row.value.retryCount == job.retryCount && row.value.lastError == reason
            && row.value.nextRunAt == Some(now + Backoff(job.retryCount + 1))
  {
    var (e, f, g) := (Event(now, Submit(job), true), Event(now, Ask(job.id, Pause), true),
                      Event(now, Ask(job.id, Fail(reason)), true));
    var paused, failed := PausedThenFailed(cfg, job, now, reason);
    SubmittedAlone(cfg, job, now);
    AskedAlone(cfg, job, Pause, paused, now);
    AskedAlone(cfg, paused, Fail(reason), failed, now);
    RunTwo(cfg, GENESIS, e, f);
    RunTwo(cfg, Alone(job, now), f, g);
    assert [e, f, g][..2] == [e, f] && [e, f, g][1..] == [f, g];
  }

  /** A fresh run: whoever waited before now runs under a full lease of this worker, with a clean slate. */
  function Claimed(cfg: Config, job: Job, now: Time): Job {
    job.(status := Running, lastError := "", reasonCode := NoReason, startedAt := Some(now), nextRunAt := None,
         workerId := cfg.workerId,
         leaseAcquiredAt := Some(now), heartbeatAt := Some(now), leaseExpiresAt := Some(now + cfg.leaseTTL))
  }

  /** A request that the job accepts and the database takes: its row is the decided one. Only an id that is all space
      cannot be buried. */
  lemma AskStores(cfg: Config, w: World, id: string, request: Request, after: Job, now: Time)
    requires Healthy(cfg, w) && w.alive && id in w.s.jobs && w.clock <= now && now > ZERO_TIME
    requires Decide(cfg, w.s.jobs[id], request, now) == Some(after)
    requires TrimSpace(id) != "" || !after.status.Dead?
    ensures var e := Event(now, Ask(id, request), true); var next := Step(cfg, w, e);
            && Legal(w, e) && Healthy(cfg, next) && next.alive && next.clock == now
            && Row(next, id) == Some(after) && id in next.s.jobs && next.s.jobs[id] == after
  {
    DecideKeepsShape(cfg, w.s.jobs[id], request, w.clock, now);
    DeadLetterAlertIsStorable(after);
    StepKeepsHealthy(cfg, w, Event(now, Ask(id, request), true));
    PersistWritesRow(w.s.tables, request, after, true);
  }

  // ---- A failure whose reason code was read earlier ----

  lemma DecideGrows(cfg: Config, job: Job, request: Request, clock: Time, now: Time)
    requires Shape(cfg, job, clock) && clock <= now && now > ZERO_TIME
    ensures match Decide(cfg, job, request, now)
            case Some(after) => Grown(job, after)
            case None => true
  {
  }

  predicate Grown(job: Job, after: Job) {
    after.maxRetries == job.maxRetries && after.retryCount >= job.retryCount
  }

  lemma StepGrows(cfg: Config, w: World, e: Event, id: string)
    requires Healthy(cfg, w) && Legal(w, e) && id in w.s.tables.rows
    ensures var later := Row(Step(cfg, w, e), id); later.Some? && Grown(w.s.tables.rows[id], later.value)
  {
    var row := w.s.tables.rows[id];
    RowAfterStep(cfg, w, e, id);
    if e.op.Ask? {
      DecideGrows(cfg, row, e.op.request, w.clock, e.now);
    }
  }

  /** Retries are never taken back, and the budget is never changed. */
  lemma {:induction false} RetriesOnlyGrow(cfg: Config, w: World, es: seq<Event>, id: string)
    requires Healthy(cfg, w) && LegalRun(cfg, w, es) && id in w.s.tables.rows
    ensures var (row, later) := (w.s.tables.rows[id], Row(Run(cfg, w, es), id));
            later.Some? && Grown(row, later.value)
    decreases |es|
  {
    if es != [] {
      StepGrows(cfg, w, es[0], id);
      StepKeepsHealthy(cfg, w, es[0]);
      RetriesOnlyGrow(cfg, Step(cfg, w, es[0]), es[1..], id);
    }
  }

  lemma CodeStays(cfg: Config, s: State, before: Job, id: string, reason: string, now: Time, up: bool)
    requires id in s.jobs && Grown(before, s.jobs[id])
    ensures Perform(cfg, s, id, FailWith(reason, ExecutionReason(before)), now, up) == Perform(cfg, s, id,
            Fail(reason), now, up)
  {
    var job := s.jobs[id];
    assert AfterFailure(job, reason, ExecutionReason(before), now) == AfterFailure(job, reason, ExecutionReason(job),
        now);
    assert Decide(cfg, job, Fail(reason), now) == AfterFailure(job, reason, ExecutionReason(job), now);
  }

  /** A failure report picks its reason code in one section and fails the job in a later one. Whatever comes in between,
      it leaves what a report of that later moment would have left. */
  lemma FailInTwoSections(cfg: Config, w: World, es: seq<Event>, id: string, reason: string, now: Time, up: bool)
    requires Healthy(cfg, w) && w.alive && id in w.s.jobs && LegalRun(cfg, w, es) && Run(cfg, w, es).alive
    ensures var s := Run(cfg, w, es).s;
            Perform(cfg, s, id, FailWith(reason, ExecutionReason(w.s.jobs[id])), now, up)
            == Perform(cfg, s, id, Fail(reason), now, up)
  {
    RetriesOnlyGrow(cfg, w, es, id);
    RunKeepsHealthy(cfg, w, es);
    CodeStays(cfg, Run(cfg, w, es).s, w.s.jobs[id], id, reason, now, up);
  }

  // ---- Pause and resume ----

  /** Pausing and resuming a waiting job gives it back unchanged exactly when it carries what a waiting job should:
      a retry keeps its due time, a fresh job has no error, reason or due time, and neither holds a lease. */
  lemma PauseResume(cfg: Config, job: Job, pausedAt: Time, resumedAt: Time)
    requires Waiting(job)
    ensures var paused := Decide(cfg, job, Pause, pausedAt);
            && paused.Some? && paused.value.status.Paused?
            && var resumed := Decide(cfg, paused.value, Resume, resumedAt);
            && resumed.Some?
            && (resumed.value == job <==>
                Unleased(job) && if job.status.Retrying? then IsSet(job.nextRunAt) else Plain(job))
  {
    assert TrimSpace("") == "";
  }

  /** Between a pause and a resume that both went through, nothing of a reachable queue changes, so the same
      jobs are ready in the same order. */
  lemma PauseResumeIsIdentity(cfg: Config, es: seq<Event>, id: string, pausedAt: Time, resumedAt: Time)
    requires LegalRun(cfg, GENESIS, es) && Run(cfg, GENESIS, es).alive
    requires var s := Run(cfg, GENESIS, es).s; id in s.jobs && Waiting(s.jobs[id])
    ensures var s := Run(cfg, GENESIS, es).s;
            var (s1, paused) := Perform(cfg, s, id, Pause, pausedAt, true);
            var (s2, resumed) := Perform(cfg, s1, id, Resume, resumedAt, true);
            && paused.Ok? && resumed == Ok(s.jobs[id]) && s2 == s
            && (forall at :: !IsReady(s1.jobs[id], at))
  {
    RunKeepsHealthy(cfg, GENESIS, es);
    var w := Run(cfg, GENESIS, es);
    assert Shape(cfg, w.s.jobs[id], w.clock);
    PauseResume(cfg, w.s.jobs[id], pausedAt, resumedAt);
    PauseResumeWrites(cfg, w.s, id, pausedAt, resumedAt);
  }

  lemma PauseResumeWrites(cfg: Config, s: State, id: string, pausedAt: Time, resumedAt: Time)
    requires id in s.jobs && s.jobs == s.tables.rows && Waiting(s.jobs[id]) && s.jobs[id].id == id
    requires ValidJob(s.jobs[id])
    requires var paused := Decide(cfg, s.jobs[id], Pause, pausedAt);
             paused.Some? && Decide(cfg, paused.value, Resume, resumedAt) == Some(s.jobs[id])
    ensures var (s1, paused) := Perform(cfg, s, id, Pause, pausedAt, true);
            var (s2, resumed) := Perform(cfg, s1, id, Resume, resumedAt, true);
            && paused.Ok? && resumed == Ok(s.jobs[id]) && s2 == s
            && id in s1.jobs && s1.jobs[id].status.Paused?
  {
    var paused := Decide(cfg, s.jobs[id], Pause, pausedAt).value;
    assert ValidJob(paused) && paused.id == id;
    assert s.jobs[id := paused][id := s.jobs[id]] == s.jobs;
  }
}
