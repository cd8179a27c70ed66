/** How many retries a dispatch counts, what it leaves, and when a late report does harm. */
module DispatchLaws {
  import opened Base
  import opened Jobs
  import opened JobStores
  import opened QueueSpec
  import opened QueueRuns
  import opened QueueLaws
  import opened DispatchSpec

  // ---- One step of a dispatch ----

  /** The run that a claim started: heartbeats change nothing else. */
  predicate SameClaim(original: Job, job: Job) {
    job == original.(heartbeatAt := job.heartbeatAt, leaseExpiresAt := job.leaseExpiresAt)
  }

  predicate FreshClaim(cfg: Config, job: Job) {
    ValidJob(job) && job.status.Running? && IsSet(job.leaseAcquiredAt) && job.workerId == cfg.workerId
  }

  lemma FailedRun(cfg: Config, job: Job, reason: string, code: ReasonCode, now: Time)
    requires ValidJob(job) && job.status.Running?
    ensures var after := AfterFailure(job, reason, code, now);
            && after.Some? && after.value.id == job.id && ValidJob(after.value)
            && (if job.retryCount < job.maxRetries then
                  && after.value.status.Retrying? && after.value.retryCount == job.retryCount + 1
                  && after.value.nextRunAt == Some(now + (job.retryCount + 1) * SECOND)
                else
                  && after.value.status.Dead? && after.value.retryCount == job.retryCount
                  && after.value.finishedAt == Some(now))
            && after.value.lastError == reason && Unleased(after.value)
  {
  }

  predicate Sane(script: Script) {
    script.claim.now != ZERO_TIME && script.close.now != ZERO_TIME
  }

  predicate AllSane(scripts: seq<Script>) {
    forall i :: 0 <= i < |scripts| ==> Sane(scripts[i])
  }

  /** The database takes the closing write of every visit. */
  predicate AllClose(scripts: seq<Script>) {
    forall i :: 0 <= i < |scripts| ==> scripts[i].close.up
  }

  /** How many plugins take the job. */
  function Takers(scripts: seq<Script>): nat {
    if scripts == [] then 0 else One(scripts[0].reached) + Takers(scripts[1..])
  }

  /** A stored job within its budget, under a claim of this worker while it runs. */
  predicate Fit(cfg: Config, s: State, id: string) {
    && id in s.jobs && s.jobs[id].id == id && ValidJob(s.jobs[id]) && s.jobs[id].retryCount <= s.jobs[id].maxRetries
    && (s.jobs[id].status.Running? ==> FreshClaim(cfg, s.jobs[id]))
  }

  function Min(a: int, b: int): int {
    if a < b then a else b
  }

  /** At most one retry more, and never beyond the budget. */
  predicate CountsOnce(before: Job, after: Job) {
    after.maxRetries == before.maxRetries && before.retryCount <= after.retryCount <= before.retryCount + 1
  }

  lemma {:induction false} BeatenKeeps(cfg: Config, s: State, id: string, beats: seq<Tick>)
    requires Fit(cfg, s, id)
    ensures var t := Beaten(cfg, s, id, beats);
            Fit(cfg, t, id) && if s.jobs[id].status.Running? then SameClaim(s.jobs[id], t.jobs[id]) else t == s
    decreases |beats|
  {
    if beats != [] {
      BeatenKeeps(cfg, Perform(cfg, s, id, Heartbeat, beats[0].now, beats[0].up).0, id, beats[1..]);
    }
  }

  /** Closing a run as failed succeeds unless the write is refused or the id is blank. */
  lemma FailureCloses(cfg: Config, s: State, id: string, reason: string, tick: Tick)
    requires Fit(cfg, s, id) && s.jobs[id].status.Running? && tick.now != ZERO_TIME
    ensures var (t, r) := Perform(cfg, s, id, Fail(reason), tick.now, tick.up);
            && Fit(cfg, t, id) && CountsOnce(s.jobs[id], t.jobs[id])
            && (r.Ok? ==> t.jobs[id] == r.value && r.value.status in {Dead, Retrying})
            && (r.Err? ==> t == s && (!tick.up || TrimSpace(id) == ""))
            && (r.Ok? ==> t.jobs[id].retryCount == Min(s.jobs[id].retryCount + 1, s.jobs[id].maxRetries))
            && (tick.up && s.jobs[id].retryCount < s.jobs[id].maxRetries ==> r.Ok? && r.value.status.Retrying?)
  {
    var job := s.jobs[id];
    FailedRun(cfg, job, reason, ExecutionReason(job), tick.now);
    DeadLetterAlertIsStorable(AfterFailure(job, reason, ExecutionReason(job), tick.now).value);
    assert Decide(cfg, job, Fail(reason), tick.now) == AfterFailure(job, reason, ExecutionReason(job), tick.now);
  }

  lemma CompletionCloses(cfg: Config, s: State, id: string, tick: Tick)
    requires Fit(cfg, s, id) && s.jobs[id].status.Running?
    ensures var (t, r) := Perform(cfg, s, id, Complete, tick.now, tick.up);
            && Fit(cfg, t, id) && CountsOnce(s.jobs[id], t.jobs[id])
            && (r.Ok? ==> t.jobs[id].status.Done?) && (r.Err? ==> t == s && !tick.up)
  {
  }

  lemma WorkedKeeps(cfg: Config, s: State, id: string, script: Script)
    requires Fit(cfg, s, id) && s.jobs[id].status.Running? && Sane(script)
    ensures var (t, failed) := Worked(cfg, s, id, script);
            && Fit(cfg, t, id) && CountsOnce(s.jobs[id], t.jobs[id])
            && (t.jobs[id].status.Running? ==>
                  failed && (!script.close.up || TrimSpace(id) == "") && SameClaim(s.jobs[id], t.jobs[id]))
            && (!failed ==> t.jobs[id].status in {Done, Dead})
  {
    var begun := Beaten(cfg, s, id, script.firstBeats);
    BeatenKeeps(cfg, s, id, script.firstBeats);
    if !script.generated {
      FailureCloses(cfg, begun, id, "generate", script.close);
    } else {
      var generated := Beaten(cfg, begun, id, script.secondBeats);
      BeatenKeeps(cfg, begun, id, script.secondBeats);
      FailureCloses(cfg, generated, id, "reply", script.close);
      CompletionCloses(cfg, generated, id, script.close);
    }
  }

  /** A claim by hand of a job that does not run. */
  lemma ClaimFits(cfg: Config, s: State, id: string, tick: Tick)
    requires Fit(cfg, s, id) && !s.jobs[id].status.Running? && tick.now != ZERO_TIME
    ensures var (t, r) := Perform(cfg, s, id, MarkRunning, tick.now, tick.up);
            && Fit(cfg, t, id) && (r.Err? ==> t == s)
            && (r.Ok? ==>
                  && t.jobs[id].status.Running? && t.jobs[id].retryCount == s.jobs[id].retryCount
                  && t.jobs[id].maxRetries == s.jobs[id].maxRetries)
            && (r.Ok? <==> Waiting(s.jobs[id]) && tick.up)
  {
    assert Decide(cfg, s.jobs[id], MarkRunning, tick.now) == AfterClaim(cfg, s.jobs[id], tick.now);
  }

  /** One visit counts at most one retry, closes the run that it worked on unless the database refuses, delivers only
      a job that ended Done or Dead, and leaves a job that is over alone. */
  lemma VisitedKeeps(cfg: Config, s: State, id: string, script: Script)
    requires Fit(cfg, s, id) && Sane(script)
    ensures var (t, failed) := Visited(cfg, s, id, script);
            && Fit(cfg, t, id) && CountsOnce(s.jobs[id], t.jobs[id])
            && (t.jobs[id].status.Running? ==>
                  && failed && (!script.close.up || TrimSpace(id) == "")
                  && (s.jobs[id].status.Running? ==> SameClaim(s.jobs[id], t.jobs[id])))
            && (!failed ==> t.jobs[id].status in {Done, Dead})
            && (s.jobs[id].status in {Done, Dead} ==> failed && t == s)
  {
    if s.jobs[id].status.Running? {
      WorkedKeeps(cfg, s, id, script);
    } else {
      ClaimFits(cfg, s, id, script.claim);
      var (claimed, r) := Perform(cfg, s, id, MarkRunning, script.claim.now, script.claim.up);
      if r.Ok? {
        WorkedKeeps(cfg, claimed, id, script);
      }
    }
  }

  // ---- A whole dispatch ----

  /** What the visits leave of the job that was handed out. */
  predicate HandedOn(cfg: Config, s: State, job: Job, delivered: bool, closed: bool) {
    && Fit(cfg, s, job.id) && s.jobs[job.id].maxRetries == job.maxRetries
    && (s.jobs[job.id].status.Running? ==>
          !delivered && (OwnershipUnchanged(job, s.jobs[job.id]) || !closed || TrimSpace(job.id) == ""))
    && (delivered ==> s.jobs[job.id].status in {Done, Dead})
  }

  lemma {:induction false} HandedKeeps(cfg: Config, s: State, job: Job, scripts: seq<Script>, delivered: bool,
                                       closed: bool)
    requires HandedOn(cfg, s, job, delivered, closed) && AllSane(scripts) && (closed ==> AllClose(scripts))
    ensures var (t, after) := Handed(Visits(cfg, job.id), s, scripts, delivered);
            && HandedOn(cfg, t, job, after, closed)
            && s.jobs[job.id].retryCount <= t.jobs[job.id].retryCount <= s.jobs[job.id].retryCount + Takers(scripts)
    decreases |scripts|
  {
    if scripts != [] {
      if scripts[0].reached {
        VisitedKeeps(cfg, s, job.id, scripts[0]);
        var (visited, failed) := Visited(cfg, s, job.id, scripts[0]);
        HandedKeeps(cfg, visited, job, scripts[1..], delivered || (!failed && scripts[0].answered), closed);
      } else {
        HandedKeeps(cfg, s, job, scripts[1..], delivered, closed);
      }
    }
  }

  /** The claim that a dispatcher was handed. */
  predicate Out(cfg: Config, s: State, job: Job) {
    Fit(cfg, s, job.id) && s.jobs[job.id] == job && job.status.Running?
  }

  /** Failing a run with a code given, as the report does. */
  lemma ActCloses(cfg: Config, s: State, id: string, reason: string, code: ReasonCode, tick: Tick)
    requires Fit(cfg, s, id) && s.jobs[id].status.Running? && tick.now != ZERO_TIME
    ensures var t := Act(cfg, s, id, reason, code, tick).0;
            && Fit(cfg, t, id) && CountsOnce(s.jobs[id], t.jobs[id])
            && (t.jobs[id].status.Running? ==> t == s && (!tick.up || TrimSpace(id) == ""))
            && (tick.up ==> t.jobs[id].retryCount == Min(s.jobs[id].retryCount + 1, s.jobs[id].maxRetries))
  {
    var job := s.jobs[id];
    FailedRun(cfg, job, reason, code, tick.now);
    DeadLetterAlertIsStorable(AfterFailure(job, reason, code, tick.now).value);
    assert Decide(cfg, job, FailWith(reason, code), tick.now) == AfterFailure(job, reason, code, tick.now);
  }

  /** The report of a failed dispatch ends the run that was handed out, if it is still there. */
  lemma ReportKeeps(cfg: Config, s: State, job: Job, report: Report)
    requires Fit(cfg, s, job.id) && job.status.Running? && report.fail.now != ZERO_TIME
    requires s.jobs[job.id].maxRetries == job.maxRetries
    ensures var t := FailDispatch(cfg, s, job, "dispatch", report.claim, report.fail).0;
            && Fit(cfg, t, job.id) && t.jobs[job.id].maxRetries == job.maxRetries
            && if s.jobs[job.id].status.Running? && OwnershipUnchanged(job, s.jobs[job.id])
               then job.retryCount <= t.jobs[job.id].retryCount <= job.retryCount + 1
                    && (t.jobs[job.id].status.Running? ==> !report.fail.up || TrimSpace(job.id) == "")
                    && (report.fail.up ==> t.jobs[job.id].retryCount == Min(job.retryCount + 1, job.maxRetries))
               else t == s
  {
    var stored := s.jobs[job.id];
    if stored.status.Running? {
      ActCloses(cfg, s, job.id, "dispatch", DispatchReason(stored), report.fail);
    }
  }

  /** A dispatch counts a retry for every plugin that takes the job at most, one if none does, and never more than the
      budget has left. It fails when no plugin delivers; afterwards the job is not Running unless the database refused
      one of the closing writes or the id is all space and cannot be dead-lettered. */
  lemma DispatchBounds(cfg: Config, s: State, job: Job, scripts: seq<Script>, report: Report)
    requires Out(cfg, s, job) && AllSane(scripts) && report.fail.now != ZERO_TIME
    ensures var (t, failed) := Dispatched(cfg, s, job, scripts, report);
            && job.id in t.jobs
            && job.retryCount <= t.jobs[job.id].retryCount
            && t.jobs[job.id].retryCount <= Min(job.retryCount + Most(scripts), job.maxRetries)
            && (t.jobs[job.id].status.Running? ==>
                  failed && (!AllClose(scripts) || !report.fail.up || TrimSpace(job.id) == ""))
            && (!failed ==> t.jobs[job.id].status in {Done, Dead})
  {
    HandedKeeps(cfg, s, job, scripts, false, AllClose(scripts));
    var (handed, delivered) := Handed(Visits(cfg, job.id), s, scripts, false);
    if !delivered {
      BeatenKeeps(cfg, handed, job.id, report.lastBeats);
      ReportKeeps(cfg, Beaten(cfg, handed, job.id, report.lastBeats), job, report);
    }
  }

  function Most(scripts: seq<Script>): nat {
    if Takers(scripts) == 0 then 1 else Takers(scripts)
  }

  // ---- The bound is met ----

  /** A visit whose generation fails and whose answer is that error. */
  function Failing(tick: Tick): Script {
    Script(true, false, false, false, true, [], [], tick, tick)
  }

  lemma FailingVisit(cfg: Config, s: State, id: string, tick: Tick)
    requires Takeable(cfg, s, id) && tick.up && tick.now != ZERO_TIME
    ensures var (t, failed) := Visited(cfg, s, id, Failing(tick));
            failed && Takeable(cfg, t, id) && FailedBy(cfg, s, t, id, 1)
  {
    if s.jobs[id].status.Running? {
      FailureCloses(cfg, s, id, "generate", tick);
    } else {
      ClaimFits(cfg, s, id, tick);
      var (claimed, r) := Perform(cfg, s, id, MarkRunning, tick.now, tick.up);
      if r.Ok? {
        FailureCloses(cfg, claimed, id, "generate", tick);
      }
    }
  }

  predicate AllAre(scripts: seq<Script>, script: Script) {
    forall i :: 0 <= i < |scripts| ==> scripts[i] == script
  }

  lemma {:induction false} CopiesAre(scripts: seq<Script>, script: Script)
    requires AllAre(scripts, script) && Sane(script) && script.reached
    ensures AllSane(scripts) && Takers(scripts) == |scripts|
  {
    if scripts != [] {
      CopiesAre(scripts[1..], script);
    }
  }

  /** Failing visits have counted `k` retries, as far as the budget went. */
  predicate FailedBy(cfg: Config, s: State, t: State, id: string, k: nat) {
    && Fit(cfg, s, id) && Fit(cfg, t, id) && t.jobs[id].maxRetries == s.jobs[id].maxRetries
    && t.jobs[id].retryCount == Min(s.jobs[id].retryCount + k, s.jobs[id].maxRetries)
  }

  /** A job that a failing visit takes on, or can do no more with. */
  predicate Takeable(cfg: Config, s: State, id: string) {
    && Fit(cfg, s, id)
    && (s.jobs[id].status in {Running, Retrying}
        || (s.jobs[id].status.Dead? && s.jobs[id].retryCount == s.jobs[id].maxRetries))
  }

  /** Each visit of this kind fails and counts a retry. */
  ghost predicate AlwaysFails(cfg: Config, visit: (State, Script) -> (State, bool), script: Script, id: string) {
    script.reached && forall s {:trigger visit(s, script)} :: Takeable(cfg, s, id) ==>
      visit(s, script).1 && Takeable(cfg, visit(s, script).0, id) && FailedBy(cfg, s, visit(s, script).0, id, 1)
  }

  /** So many retries are counted, as far as the budget goes. */
  lemma {:induction false} FailingVisits(cfg: Config, visit: (State, Script) -> (State, bool), script: Script, s: State,
                                         id: string, scripts: seq<Script>)
    requires AlwaysFails(cfg, visit, script, id) && Takeable(cfg, s, id) && AllAre(scripts, script)
    ensures var (t, delivered) := Handed(visit, s, scripts, false); !delivered && FailedBy(cfg, s, t, id, |scripts|)
    decreases |scripts|
  {
    if scripts != [] {
      FailingVisits(cfg, visit, script, visit(s, script).0, id, scripts[1..]);
    }
  }

  lemma FailingOnesFail(cfg: Config, id: string, tick: Tick)
    requires tick.up && tick.now != ZERO_TIME
    ensures AlwaysFails(cfg, Visits(cfg, id), Failing(tick), id)
  {
    forall s | Takeable(cfg, s, id)
      ensures var (t, failed) := Visits(cfg, id)(s, Failing(tick));
              failed && Takeable(cfg, t, id) && FailedBy(cfg, s, t, id, 1) {
      FailingVisit(cfg, s, id, tick);
    }
  }

  /** The bound on a dispatch is met: every plugin fails the job, and so many retries are counted. */
  lemma FailingDispatch(cfg: Config, s: State, job: Job, scripts: seq<Script>, tick: Tick)
    requires Out(cfg, s, job) && AllAre(scripts, Failing(tick)) && tick.up && tick.now != ZERO_TIME
    ensures var t := Dispatched(cfg, s, job, scripts, Report([], tick, tick)).0;
            && job.id in t.jobs && AllSane(scripts) && Takers(scripts) == |scripts|
            && t.jobs[job.id].retryCount == Min(job.retryCount + Most(scripts), job.maxRetries)
  {
    CopiesAre(scripts, Failing(tick));
    FailingOnesFail(cfg, job.id, tick);
    FailingVisits(cfg, Visits(cfg, job.id), Failing(tick), s, job.id, scripts);
    var handed := Handed(Visits(cfg, job.id), s, scripts, false).0;
    ReportKeeps(cfg, handed, job, Report([], tick, tick));
  }

  /** The job's retry count after a dispatch. */
  function RetriesAfter(cfg: Config, s: State, job: Job, scripts: seq<Script>, report: Report): int {
    var t := Dispatched(cfg, s, job, scripts, report).0;
    if job.id in t.jobs then t.jobs[job.id].retryCount else 0
  }

  /** Whatever `k` plugins do, a dispatch of this claim counts one retry at most. */
  ghost predicate CountsOneRetry(cfg: Config, s: State, job: Job, k: nat) {
    forall scripts, report: Report :: AllSane(scripts) && report.fail.now != ZERO_TIME && Takers(scripts) == k ==>
      RetriesAfter(cfg, s, job, scripts, report) <= job.retryCount + 1
  }

  /** A dispatch of a claim counts at most one retry, whatever the plugins do, if and only if at most one plugin takes
      the job or at most one retry is left to it. */
  lemma OneRetryExactly(cfg: Config, s: State, job: Job, k: nat)
    requires Out(cfg, s, job)
    ensures CountsOneRetry(cfg, s, job, k) <==> k <= 1 || job.maxRetries - job.retryCount <= 1
  {
    if k <= 1 || job.maxRetries - job.retryCount <= 1 {
      forall scripts, report: Report | AllSane(scripts) && report.fail.now != ZERO_TIME && Takers(scripts) == k
        ensures RetriesAfter(cfg, s, job, scripts, report) <= job.retryCount + 1 {
        DispatchBounds(cfg, s, job, scripts, report);
      }
    } else {
      var tick := Tick(1, true);
      var scripts := seq(k, _ => Failing(tick));
      FailingDispatch(cfg, s, job, scripts, tick);
      assert RetriesAfter(cfg, s, job, scripts, Report([], tick, tick)) > job.retryCount + 1;
    }
  }
}
