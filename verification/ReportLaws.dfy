/** The failure report of a dispatcher, at any later time and over every interleaving: whom it ends. */
module ReportLaws {
  import opened Base
  import opened Jobs
  import opened JobStores
  import opened QueueSpec
  import opened QueueRuns
  import opened QueueLaws
  import opened DispatchSpec
  import opened DispatchLaws

  // ---- The guard, over every interleaving ----

  predicate RunningAt(w: World, id: string) {
    HasStatus(Row(w, id), Running)
  }

  /** The job stays Running through every state of the run: nobody ended the claim. */
  predicate Held(cfg: Config, w: World, es: seq<Event>, id: string)
    decreases |es|
  {
    RunningAt(w, id) && (es != [] ==> Held(cfg, Step(cfg, w, es[0]), es[1..], id))
  }

  ghost predicate Later(es: seq<Event>, at: Time) {
    forall i :: 0 <= i < |es| ==> es[i].now > at
  }

  /** Whatever runs now was started after `at`. */
  predicate Ended(row: Option<Job>, at: Time) {
    row.Some? && (row.value.status.Running? ==> row.value.startedAt.Some? && row.value.startedAt.value > at)
  }

  lemma FailureOnClaim(cfg: Config, original: Job, job: Job, reason: string, code: ReasonCode, clock: Time, now: Time,
                       at: Time)
    requires Shape(cfg, job, clock) && now > at && original.startedAt == Some(at) && original.status.Running?
    ensures match AfterFailure(job, reason, code, now)
            case Some(after) => !after.status.Running? && (Ended(Some(job), at) ==> Ended(Some(after), at))
            case None => true
  {
  }

  lemma DecideOnClaim(cfg: Config, original: Job, job: Job, request: Request, clock: Time, now: Time, at: Time)
    requires Shape(cfg, job, clock) && now > at && original.startedAt == Some(at) && original.status.Running?
    ensures match Decide(cfg, job, request, now)
            case Some(after) =>
              && (SameClaim(original, job) ==> !after.status.Running? || SameClaim(original, after))
              && (Ended(Some(job), at) ==> Ended(Some(after), at))
            case None => true
  {
    match request
    case Fail(reason) => FailureOnClaim(cfg, original, job, reason, ExecutionReason(job), clock, now, at);
    case FailWith(reason, code) => FailureOnClaim(cfg, original, job, reason, code, clock, now, at);
    case Timeout => FailureOnClaim(cfg, original, job, "timeout", TimedOut, clock, now, at);
    case _ =>
  }

  lemma StepOnClaim(cfg: Config, w: World, e: Event, original: Job, at: Time)
    requires Healthy(cfg, w) && Legal(w, e) && e.now > at && original.startedAt == Some(at) && original.status.Running?
    requires original.id in w.s.tables.rows
    ensures var row, row' := w.s.tables.rows[original.id], Row(Step(cfg, w, e), original.id);
            && row'.Some?
            && (SameClaim(original, row) ==> !row'.value.status.Running? || SameClaim(original, row'.value))
            && (Ended(Some(row), at) ==> Ended(row', at))
  {
    var row := w.s.tables.rows[original.id];
    RowAfterStep(cfg, w, e, original.id);
    assert Shape(cfg, row, w.clock);
    if e.op.Boot? {
      RecoveredKeepsShape(cfg, row, w.clock, e.now);
    } else if e.op.Ask? {
      DecideOnClaim(cfg, original, row, e.op.request, w.clock, e.now, at);
    }
  }

  lemma {:induction false} EndedStays(cfg: Config, w: World, es: seq<Event>, original: Job, at: Time)
    requires Healthy(cfg, w) && LegalRun(cfg, w, es) && Later(es, at) && original.startedAt == Some(at)
    requires original.status.Running?
    requires Ended(Row(w, original.id), at)
    ensures Ended(Row(Run(cfg, w, es), original.id), at)
    decreases |es|
  {
    if es != [] {
      StepOnClaim(cfg, w, es[0], original, at);
      StepKeepsHealthy(cfg, w, es[0]);
      EndedStays(cfg, Step(cfg, w, es[0]), es[1..], original, at);
    }
  }

  lemma {:induction false} ClaimOverRun(cfg: Config, w: World, es: seq<Event>, original: Job, at: Time)
    requires Healthy(cfg, w) && LegalRun(cfg, w, es) && Later(es, at) && original.startedAt == Some(at)
    requires original.status.Running?
    requires original.id in w.s.tables.rows && SameClaim(original, w.s.tables.rows[original.id])
    ensures var final := Row(Run(cfg, w, es), original.id);
            if Held(cfg, w, es, original.id) then final.Some? && SameClaim(original, final.value) else Ended(final, at)
    decreases |es|
  {
    if es != [] {
      var next := Step(cfg, w, es[0]);
      StepOnClaim(cfg, w, es[0], original, at);
      StepKeepsHealthy(cfg, w, es[0]);
      if SameClaim(original, Row(next, original.id).value) {
        ClaimOverRun(cfg, next, es[1..], original, at);
      } else {
        EndedStays(cfg, next, es[1..], original, at);
        assert !Held(cfg, next, es[1..], original.id);
      }
    }
  }

  /** The event that claims a job and the record it hands to the dispatcher. */
  ghost predicate Claims(cfg: Config, w: World, e: Event, original: Job) {
    && Healthy(cfg, w) && w.alive && Legal(w, e)
    && e.op.Ask? && e.op.request in {MarkRunning, Retry}
    && Perform(cfg, w.s, e.op.id, e.op.request, e.now, e.up).1 == Ok(original)
  }

  lemma ClaimedRecord(cfg: Config, w: World, e: Event, original: Job)
    requires Claims(cfg, w, e, original)
    ensures var next := Step(cfg, w, e);
            && Healthy(cfg, next) && Row(next, original.id) == Some(original)
            && FreshClaim(cfg, original) && original.startedAt == Some(e.now)
  {
    StepKeepsHealthy(cfg, w, e);
    var job := w.s.jobs[e.op.id];
    ClaimKeepsShape(cfg, job, w.clock, e.now);
    assert Decide(cfg, job, e.op.request, e.now) == AfterClaim(cfg, job, e.now) == Some(original);
    PersistWritesRow(w.s.tables, e.op.request, original, e.up);
  }

  /** A dispatcher that reports a failure for its claim, at any later time and after any interleaving, fails the
      job exactly when that claim is still held. If the claim ended, and even if the job was claimed again
      since, nothing changes; and heartbeats on the claim, however many, never make the report go unheard. */
  lemma StaleDispatcherIsHarmless(cfg: Config, w: World, claim: Event, es: seq<Event>, original: Job, reason: string,
                                  first: Tick, second: Tick)
    requires Claims(cfg, w, claim, original)
    requires LegalRun(cfg, Step(cfg, w, claim), es) && Later(es, claim.now) && Run(cfg, Step(cfg, w, claim), es).alive
    ensures var start := Step(cfg, w, claim); var s := Run(cfg, start, es).s;
            && original.id in s.jobs
            && if Held(cfg, start, es, original.id)
               then FailDispatch(cfg, s, original, reason, first, second).0
                    == Perform(cfg, s, original.id, FailWith(reason, DispatchReason(s.jobs[original.id])), second.now,
                               second.up).0
               else FailDispatch(cfg, s, original, reason, first, second) == (s, None)
  {
    ClaimedRecord(cfg, w, claim, original);
    var start := Step(cfg, w, claim);
    RunKeepsHealthy(cfg, start, es);
    ClaimOverRun(cfg, start, es, original, claim.now);
  }

  /** A report that is heard ends the run: one more retry while the budget lasts, else the dead-letter list. */
  lemma HeardReportEndsRun(cfg: Config, s: State, job: Job, reason: string, tick: Tick)
    requires job.id in s.jobs && s.jobs[job.id] == job && FreshClaim(cfg, job)
    requires tick.up && tick.now != ZERO_TIME && TrimSpace(job.id) != ""
    ensures var s' := Perform(cfg, s, job.id, FailWith(reason, DispatchReason(job)), tick.now, tick.up).0;
            var after := s'.jobs[job.id];
            if job.retryCount < job.maxRetries then
              after.status.Retrying? && after.retryCount == job.retryCount + 1 && after.reasonCode.DispatchRetry?
            else
              after.status.Dead? && after in s'.dead && after.reasonCode.DispatchDead?
              && HasAlert(s'.tables, after) && after.lastError == reason
  {
    var after := AfterFailure(job, reason, DispatchReason(job), tick.now).value;
    FailedRun(cfg, job, reason, DispatchReason(job), tick.now);
    DeadLetterAlertIsStorable(after);
    assert Decide(cfg, job, FailWith(reason, DispatchReason(job)), tick.now) == Some(after);
  }

  /** The dead-letter alert of the job is stored. */
  predicate HasAlert(t: Tables, job: Job) {
    "job.dead_letter:" + TrimSpace(job.id) in t.alerts
  }

  // ---- When something comes between the look and the act ----

  /** A failure report is taken by a run, by a paused job with retries left and by a waiting one without. */
  predicate Takes(job: Job) {
    job.status.Running? || (if job.retryCount < job.maxRetries then job.status.Paused? else Waiting(job))
  }

  /** What the last section of a report leaves alone: a job that does not take a report, or any job when the database
      refuses the write or the death of an id that is all space. */
  lemma ActExactly(cfg: Config, w: World, id: string, reason: string, code: ReasonCode, tick: Tick)
    requires Healthy(cfg, w) && w.alive && id in w.s.jobs && w.clock <= tick.now && tick.now > ZERO_TIME
    ensures var job := w.s.jobs[id];
            Act(cfg, w.s, id, reason, code, tick).0 == w.s <==>
              !Takes(job) || !tick.up || (job.retryCount == job.maxRetries && TrimSpace(id) == "")
  {
    var job := w.s.jobs[id];
    assert Shape(cfg, job, w.clock);
    AcceptedExactly(cfg, job, FailWith(reason, code), w.clock, tick.now);
    assert Decide(cfg, job, FailWith(reason, code), tick.now) == AfterFailure(job, reason, code, tick.now);
    if Takes(job) {
      AfterReport(cfg, job, reason, code, w.clock, tick.now);
      var after := AfterFailure(job, reason, code, tick.now).value;
      DeadLetterAlertIsStorable(after);
      DecideKeepsShape(cfg, job, FailWith(reason, code), w.clock, tick.now);
    }
  }

  /** The code that was read at the look is still the right one at the act. */
  lemma DispatchCodeStays(before: Job, job: Job, reason: string, now: Time)
    requires before.maxRetries == job.maxRetries && before.retryCount <= job.retryCount
    ensures AfterFailure(job, reason, DispatchReason(before), now) == AfterFailure(job, reason, DispatchReason(job),
            now)
  {
  }

  /** What the first section decides for a claim: to act exactly while the claim is held. */
  lemma LookDecides(cfg: Config, w: World, claim: Event, es: seq<Event>, original: Job)
    requires Claims(cfg, w, claim, original)
    requires LegalRun(cfg, Step(cfg, w, claim), es) && Later(es, claim.now) && Run(cfg, Step(cfg, w, claim), es).alive
    ensures var start := Step(cfg, w, claim); var s := Run(cfg, start, es).s;
            && original.id in s.jobs
            && LookFirst(s, original)
            == Judges(if Held(cfg, start, es, original.id) then Acts(DispatchReason(s.jobs[original.id]))
                      else Ends(None))
  {
    ClaimedRecord(cfg, w, claim, original);
    var start := Step(cfg, w, claim);
    RunKeepsHealthy(cfg, start, es);
    ClaimOverRun(cfg, start, es, original, claim.now);
  }

  /** A report that looked while its claim was held, and acts after anything else has happened. It is harmless exactly
      when the claim is still held, or the row that it finds does not take the report. */
  lemma LateReportExactly(cfg: Config, mid: World, between: seq<Event>, original: Job, at: Time, reason: string,
                          tick: Tick)
    requires Healthy(cfg, mid) && mid.alive && original.id in mid.s.jobs && SameClaim(original, mid.s.jobs[original.id])
    requires original.status.Running? && original.startedAt == Some(at)
    requires LegalRun(cfg, mid, between) && Later(between, at) && Run(cfg, mid, between).alive
    requires Run(cfg, mid, between).clock <= tick.now && tick.now > ZERO_TIME
    ensures var s := Run(cfg, mid, between).s; var code := DispatchReason(mid.s.jobs[original.id]);
            && original.id in s.jobs
            && var (job, t) := (s.jobs[original.id], Act(cfg, s, original.id, reason, code, tick).0);
            && t == Act(cfg, s, original.id, reason, DispatchReason(job), tick).0
            && if Held(cfg, mid, between, original.id) then SameClaim(original, job)
               else
                 && !SameClaim(original, job)
                 && (t == s <==>
                       !Takes(job) || !tick.up || (job.retryCount == job.maxRetries && TrimSpace(original.id) == ""))
  {
    ClaimOverRun(cfg, mid, between, original, at);
    RunKeepsHealthy(cfg, mid, between);
    RetriesOnlyGrow(cfg, mid, between, original.id);
    var w := Run(cfg, mid, between);
    var (before, job) := (mid.s.jobs[original.id], w.s.jobs[original.id]);
    DispatchCodeStays(before, job, reason, tick.now);
    SameReport(cfg, w.s, original.id, reason, DispatchReason(before), DispatchReason(job), tick);
    ActExactly(cfg, w, original.id, reason, DispatchReason(before), tick);
  }

  lemma SameReport(cfg: Config, s: State, id: string, reason: string, code: ReasonCode, code': ReasonCode, tick: Tick)
    requires id in s.jobs && AfterFailure(s.jobs[id], reason, code, tick.now) == AfterFailure(s.jobs[id], reason,
             code', tick.now)
    ensures Act(cfg, s, id, reason, code, tick) == Act(cfg, s, id, reason, code', tick)
  {
    assert Decide(cfg, s.jobs[id], FailWith(reason, code), tick.now) == AfterFailure(s.jobs[id], reason, code,
        tick.now);
    assert Decide(cfg, s.jobs[id], FailWith(reason, code'), tick.now) == AfterFailure(s.jobs[id], reason, code',
        tick.now);
  }

  /** Between the look and the act, the run times out and the job is claimed again. */
  function TimedOutAndClaimed(id: string, first: Time, second: Time): seq<Event> {
    [Event(first, Ask(id, Timeout), true), Event(second, Ask(id, MarkRunning), true)]
  }

  /** The records on the way: timed out, claimed again, and failed by the late report. */
  lemma NewerRunRecords(cfg: Config, job: Job, clock: Time, first: Time, second: Time, third: Time, reason: string,
                        code: ReasonCode)
    returns (waiting: Job, again: Job, failed: Job)
    requires Shape(cfg, job, clock) && job.status.Running? && clock <= first <= second <= third && first > ZERO_TIME
    requires job.retryCount + 2 <= job.maxRetries
    ensures Decide(cfg, job, Timeout, first) == Some(waiting) && waiting.id == job.id && waiting.status.Retrying?
    ensures Decide(cfg, waiting, MarkRunning, second) == Some(again) && again.id == job.id && again.status.Running?
    ensures again.startedAt == Some(second) && again.retryCount == job.retryCount + 1
    ensures Decide(cfg, again, FailWith(reason, code), third) == Some(failed) && failed.id == job.id
    ensures failed.status.Retrying? && failed.retryCount == job.retryCount + 2 && ValidJob(failed)
    ensures ValidJob(waiting) && ValidJob(again)
  {
    waiting := AfterFailure(job, "timeout", TimedOut, first).value;
    again := AfterClaim(cfg, waiting, second).value;
    failed := AfterFailure(again, reason, code, third).value;
  }

  /** A report that looked while its claim was held ends a newer run all the same: for every claim with two retries
      left, the run times out and the job is claimed again before the report acts, and two retries are counted. */
  lemma LateReportEndsNewerRun(cfg: Config, mid: World, original: Job, at: Time, first: Time, second: Time, third: Time,
                               reason: string)
    requires Healthy(cfg, mid) && mid.alive && original.id in mid.s.jobs && SameClaim(original, mid.s.jobs[original.id])
    requires original.status.Running? && original.startedAt == Some(at)
    requires original.retryCount + 2 <= original.maxRetries
    requires at < first <= second <= third && mid.clock <= first && first > ZERO_TIME
    ensures var (id, between) := (original.id, TimedOutAndClaimed(original.id, first, second));
            && LookFirst(mid.s, original) == Judges(Acts(DispatchRetry))
            && LegalRun(cfg, mid, between) && !Held(cfg, mid, between, id)
            && var s := Run(cfg, mid, between).s;
            && Run(cfg, mid, between).alive && id in s.jobs && s.jobs[id].status.Running?
            && s.jobs[id].startedAt == Some(second)
            && var t := Act(cfg, s, id, reason, DispatchRetry, Tick(third, true)).0;
            && id in t.jobs && t.jobs[id].status.Retrying? && t.jobs[id].retryCount == original.retryCount + 2
  {
    var id := original.id;
    var job := mid.s.jobs[id];
    assert Shape(cfg, job, mid.clock);
    var waiting, again, failed := NewerRunRecords(cfg, job, mid.clock, first, second, third, reason, DispatchRetry);
    var (e, f) := (Event(first, Ask(id, Timeout), true), Event(second, Ask(id, MarkRunning), true));
    AskStores(cfg, mid, id, Timeout, waiting, first);
    var timedOut := Step(cfg, mid, e);
    AskStores(cfg, timedOut, id, MarkRunning, again, second);
    var claimed := Step(cfg, timedOut, f);
    AskStores(cfg, claimed, id, FailWith(reason, DispatchRetry), failed, third);
    RunTwo(cfg, mid, e, f);
    NotHeld(cfg, mid, [e, f], id);
  }

  lemma NotHeld(cfg: Config, w: World, es: seq<Event>, id: string)
    requires es != [] && !RunningAt(Step(cfg, w, es[0]), id)
    ensures !Held(cfg, w, es, id)
  {
  }
}
