/** The retry budget is spent to the last attempt by some history, for every number of dead-letter retries. */
module RetryBudgets {
  import opened Base
  import opened Jobs
  import opened QueueSpec
  import opened QueueRuns
  import opened QueueLaws

  /** One event more at the front of a run. */
  lemma Front(cfg: Config, w: World, e: Event, es: seq<Event>, id: string)
    requires Legal(w, e) && LegalRun(cfg, Step(cfg, w, e), es)
    ensures LegalRun(cfg, w, [e] + es)
    ensures var next := Step(cfg, w, e);
            && Starts(cfg, w, [e] + es, id)
            == One(HasStatus(Row(next, id), Running) && !HasStatus(Row(w, id), Running)) + Starts(cfg, next, es, id)
            && Revivals(cfg, w, [e] + es, id)
            == One(HasStatus(Row(w, id), Dead) && !HasStatus(Row(next, id), Dead)) + Revivals(cfg, next, es, id)
  {
    assert ([e] + es)[1..] == es;
  }

  function Asks(id: string, request: Request, now: Time): Event {
    Event(now, Ask(id, request), true)
  }

  /** The job is claimed and fails until it dies, and is then revived, claimed and failed `k` times. */
  function Story(id: string, n: nat, k: nat, now: Time): seq<Event>
    decreases n + k
  {
    var (claim, failure) := (Asks(id, MarkRunning, now), Asks(id, Timeout, now));
    if n > 0 then [claim] + ([failure] + Story(id, n - 1, k, now))
    else if k > 0 then [Asks(id, RetryDeadLetter, now)] + ([claim] + ([failure] + Story(id, 0, k - 1, now)))
    else []
  }

  /** `n` attempts are left to the job: none, and it is dead, or what the budget still allows. */
  predicate Left(cfg: Config, w: World, id: string, n: nat, now: Time) {
    && w.alive && w.clock <= now && now > ZERO_TIME && TrimSpace(id) != "" && Row(w, id).Some?
    && var job := Row(w, id).value;
    if n == 0 then job.status.Dead? && job.retryCount == job.maxRetries
    else Waiting(job) && job.maxRetries - job.retryCount + 1 == n
  }

  lemma AttemptRecords(cfg: Config, job: Job, clock: Time, now: Time) returns (running: Job, failed: Job)
    requires Shape(cfg, job, clock) && clock <= now && now > ZERO_TIME && Waiting(job)
    ensures Decide(cfg, job, MarkRunning, now) == Some(running) && running.status.Running?
    ensures Decide(cfg, running, Timeout, now) == Some(failed) && failed.maxRetries == job.maxRetries
    ensures if job.retryCount < job.maxRetries then failed.status.Retrying? && failed.retryCount == job.retryCount + 1
            else failed.status.Dead? && failed.retryCount == job.retryCount
  {
    running := AfterClaim(cfg, job, now).value;
    failed := AfterFailure(running, "timeout", TimedOut, now).value;
  }

  /** One attempt: claimed and failed. */
  lemma Attempt(cfg: Config, w: World, id: string, n: nat, es: seq<Event>, now: Time) returns (next: World)
    requires Healthy(cfg, w) && n > 0 && Left(cfg, w, id, n, now)
    ensures Healthy(cfg, next) && Left(cfg, next, id, n - 1, now)
    ensures var both := [Asks(id, MarkRunning, now)] + ([Asks(id, Timeout, now)] + es);
            LegalRun(cfg, next, es) ==>
              && LegalRun(cfg, w, both) && Starts(cfg, w, both, id) == 1 + Starts(cfg, next, es, id)
              && Revivals(cfg, w, both, id) == Revivals(cfg, next, es, id)
  {
    var job := w.s.jobs[id];
    assert Shape(cfg, job, w.clock);
    var running, failed := AttemptRecords(cfg, job, w.clock, now);
    AskStores(cfg, w, id, MarkRunning, running, now);
    var claimed := Step(cfg, w, Asks(id, MarkRunning, now));
    AskStores(cfg, claimed, id, Timeout, failed, now);
    next := Step(cfg, claimed, Asks(id, Timeout, now));
    if LegalRun(cfg, next, es) {
      Front(cfg, claimed, Asks(id, Timeout, now), es, id);
      Front(cfg, w, Asks(id, MarkRunning, now), [Asks(id, Timeout, now)] + es, id);
    }
  }

  /** A dead job is revived for one more attempt. */
  lemma Revival(cfg: Config, w: World, id: string, es: seq<Event>, now: Time) returns (next: World)
    requires Healthy(cfg, w) && Left(cfg, w, id, 0, now)
    ensures Healthy(cfg, next) && Left(cfg, next, id, 1, now)
    ensures LegalRun(cfg, next, es) ==>
              && LegalRun(cfg, w, [Asks(id, RetryDeadLetter, now)] + es)
              && Starts(cfg, w, [Asks(id, RetryDeadLetter, now)] + es, id) == Starts(cfg, next, es, id)
              && Revivals(cfg, w, [Asks(id, RetryDeadLetter, now)] + es, id) == 1 + Revivals(cfg, next, es, id)
  {
    var job := w.s.jobs[id];
    assert Shape(cfg, job, w.clock);
    AskStores(cfg, w, id, RetryDeadLetter, Revive(job), now);
    next := Step(cfg, w, Asks(id, RetryDeadLetter, now));
    if LegalRun(cfg, next, es) {
      Front(cfg, w, Asks(id, RetryDeadLetter, now), es, id);
    }
  }

  lemma {:induction false} StorySpends(cfg: Config, w: World, id: string, n: nat, k: nat, now: Time)
    requires Healthy(cfg, w) && Left(cfg, w, id, n, now)
    ensures var es := Story(id, n, k, now);
            LegalRun(cfg, w, es) && Starts(cfg, w, es, id) == n + k && Revivals(cfg, w, es, id) == k
    decreases n + k
  {
    if n > 0 {
      var next := Attempt(cfg, w, id, n, Story(id, n - 1, k, now), now);
      StorySpends(cfg, next, id, n - 1, k, now);
    } else if k > 0 {
      var again := [Asks(id, MarkRunning, now)] + ([Asks(id, Timeout, now)] + Story(id, 0, k - 1, now));
      var revived := Revival(cfg, w, id, again, now);
      var next := Attempt(cfg, revived, id, 1, Story(id, 0, k - 1, now), now);
      StorySpends(cfg, next, id, 0, k - 1, now);
    }
  }

  lemma SubmitLeaves(cfg: Config, w: World, job: Job, now: Time)
    requires Healthy(cfg, w) && w.alive && w.clock <= now && now > ZERO_TIME && job.id !in w.s.jobs
    requires ValidJob(job) && Untouched(job) && job.status.Pending? && TrimSpace(job.id) != ""
    ensures var e := Event(now, Submit(job), true);
            && Legal(w, e) && Healthy(cfg, Step(cfg, w, e)) && job.maxRetries - job.retryCount >= 0
            && Left(cfg, Step(cfg, w, e), job.id, job.maxRetries - job.retryCount + 1, now)
  {
    StepKeepsHealthy(cfg, w, Event(now, Submit(job), true));
  }

  /** The bound on starts is met: from any healthy queue, a job that was just submitted can start exactly once, plus
      once for each retry left to it, plus once for each of any number of dead-letter retries. */
  lemma BudgetIsSpent(cfg: Config, w: World, job: Job, now: Time, k: nat)
    requires Healthy(cfg, w) && w.alive && w.clock <= now && now > ZERO_TIME && job.id !in w.s.jobs
    requires ValidJob(job) && Untouched(job) && job.status.Pending? && TrimSpace(job.id) != ""
    ensures var next := Step(cfg, w, Event(now, Submit(job), true));
            var n := job.maxRetries - job.retryCount + 1;
            && Legal(w, Event(now, Submit(job), true)) && n > 0
            && var es := Story(job.id, n, k, now);
            && LegalRun(cfg, next, es) && Starts(cfg, next, es, job.id) == n + k && Revivals(cfg, next, es, job.id) == k
  {
    var (next, n) := (Step(cfg, w, Event(now, Submit(job), true)), job.maxRetries - job.retryCount + 1);
    SubmitLeaves(cfg, w, job, now);
    StorySpends(cfg, next, job.id, n, k, now);
  }

  lemma DeadIsListed(cfg: Config, w: World, id: string)
    requires Healthy(cfg, w) && w.alive && HasStatus(Row(w, id), Dead)
    ensures Row(w, id).value in w.s.dead
  {
    assert id in DeadRows(w.s.tables.rows);
  }

  lemma DeadRecord(cfg: Config, job: Job, reason: string, now: Time) returns (dead: Job)
    requires ValidJob(job) && job.status.Pending? && job.retryCount == job.maxRetries
    ensures Decide(cfg, job, Fail(reason), now) == Some(dead) && dead.status.Dead? && dead.startedAt == job.startedAt
  {
    dead := AfterFailure(job, reason, ExecutionReason(job), now).value;
  }

  /** A job whose budget is spent and which merely waits dies of a failure report. */
  lemma WaitingTakesReport(cfg: Config, w: World, job: Job, now: Time, reason: string)
    requires Healthy(cfg, w) && w.alive && w.clock <= now && now > ZERO_TIME && job.id !in w.s.jobs
    requires ValidJob(job) && Untouched(job) && job.status.Pending? && TrimSpace(job.id) != ""
    requires job.retryCount == job.maxRetries
    ensures var es := [Event(now, Submit(job), true), Asks(job.id, Fail(reason), now)]; var end := Run(cfg, w, es);
            && LegalRun(cfg, w, es) && HasStatus(Row(end, job.id), Dead)
            && Row(end, job.id).value.startedAt == job.startedAt && Row(end, job.id).value in end.s.dead
  {
    var (e, f) := (Event(now, Submit(job), true), Asks(job.id, Fail(reason), now));
    StepKeepsHealthy(cfg, w, e);
    var waiting := Step(cfg, w, e);
    var dead := DeadRecord(cfg, job, reason, now);
    AskStores(cfg, waiting, job.id, Fail(reason), dead, now);
    RunTwo(cfg, w, e, f);
    DeadIsListed(cfg, Step(cfg, waiting, f), job.id);
  }
}
