/** What a dispatch leaves of the job and answers, for every way its plugins and the database behave. */
module DispatchOutcomes {
  import opened Base
  import opened Jobs
  import opened JobStores
  import opened QueueSpec
  import opened QueueRuns
  import opened QueueLaws
  import opened QueueOutcomes
  import opened DispatchSpec
  import opened DispatchLaws

  // ---- Closing a run ----

  /** The database takes the failure of a run, which for a last failure needs an id that is not all space. */
  predicate CanClose(job: Job, tick: Tick) {
    tick.up && (job.retryCount < job.maxRetries || !IsBlank(job.id))
  }

  /** A failed run, with the code of a retry or of the end, or the refusal that leaves everything as it is. */
  predicate Fails(s: State, t: State, id: string, reason: string, code: ReasonCode, tick: Tick) {
    id in s.jobs
    && if CanClose(s.jobs[id], tick) then
         id in t.jobs && t.jobs == s.jobs[id := t.jobs[id]] && FailsTo(s.jobs[id], reason, code, tick.now, t.jobs[id])
       else t == s
  }

  lemma FailedRunTo(job: Job, reason: string, code: ReasonCode, now: Time)
    requires ValidJob(job) && job.status.Running? && job.retryCount <= job.maxRetries
    ensures AfterFailure(job, reason, code, now).Some?
    ensures FailsTo(job, reason, code, now, AfterFailure(job, reason, code, now).value)
  {
    if job.retryCount < job.maxRetries {
      RetriedIs(job, reason, code, now + (job.retryCount + 1) * SECOND);
    } else {
      BuriedIs(job, reason, DeadReason(code), now);
    }
  }

  /** The decided record of a failure is stored, or nothing is. */
  lemma FailureStores(cfg: Config, s: State, id: string, request: Request, after: Job, tick: Tick)
    requires Fit(cfg, s, id) && tick.now != ZERO_TIME && !request.RetryDeadLetter?
    requires Decide(cfg, s.jobs[id], request, tick.now) == Some(after) && after.id == id && ValidJob(after)
    requires after.status.Dead? ==> after.finishedAt == Some(tick.now)
    ensures var (t, r) := Perform(cfg, s, id, request, tick.now, tick.up);
            if tick.up && (after.status.Dead? ==> !IsBlank(id)) then r == Ok(after) && t.jobs == s.jobs[id := after]
            else r == Err(PersistFailed) && t == s
  {
    DeadLetterAlertIsStorable(after);
  }

  lemma FailEnds(cfg: Config, s: State, id: string, reason: string, tick: Tick)
    requires Fit(cfg, s, id) && s.jobs[id].status.Running? && tick.now != ZERO_TIME
    ensures var (t, r) := Perform(cfg, s, id, Fail(reason), tick.now, tick.up);
            && Fails(s, t, id, reason, ExecutionRetry, tick)
            && r == if CanClose(s.jobs[id], tick) then Ok(t.jobs[id]) else Err(PersistFailed)
  {
    var job := s.jobs[id];
    var code := ExecutionReason(job);
    FailedRunTo(job, reason, code, tick.now);
    assert Decide(cfg, job, Fail(reason), tick.now) == AfterFailure(job, reason, code, tick.now);
    FailureStores(cfg, s, id, Fail(reason), AfterFailure(job, reason, code, tick.now).value, tick);
  }

  lemma ActEnds(cfg: Config, s: State, id: string, reason: string, tick: Tick)
    requires Fit(cfg, s, id) && s.jobs[id].status.Running? && tick.now != ZERO_TIME
    ensures var (t, error) := Act(cfg, s, id, reason, DispatchReason(s.jobs[id]), tick);
            && Fails(s, t, id, reason, DispatchRetry, tick)
            && error == if CanClose(s.jobs[id], tick) then None else Some(PersistFailed)
  {
    var job := s.jobs[id];
    var request := FailWith(reason, DispatchReason(job));
    FailedRunTo(job, reason, DispatchReason(job), tick.now);
    assert Decide(cfg, job, request, tick.now) == AfterFailure(job, reason, DispatchReason(job), tick.now);
    FailureStores(cfg, s, id, request, AfterFailure(job, reason, DispatchReason(job), tick.now).value, tick);
  }

  // ---- The work of one plugin ----

  /** A completed run. */
  function Finished(job: Job, now: Time): Job {
    job.(status := Done, lastError := "", finishedAt := Some(now), workerId := "", leaseAcquiredAt := None,
         leaseExpiresAt := None, heartbeatAt := None)
  }

  /** The last beat that the database took. */
  predicate LastBeat(beats: seq<Tick>, i: nat) {
    i < |beats| && beats[i].up && forall j :: i < j < |beats| ==> !beats[j].up
  }

  /** The run after a heartbeat that the database took. */
  function Renewed(cfg: Config, job: Job, now: Time): Job {
    job.(heartbeatAt := Some(now), leaseExpiresAt := Some(now + cfg.leaseTTL))
  }

  lemma BeatRenews(cfg: Config, s: State, id: string, beat: Tick)
    requires Fit(cfg, s, id) && s.jobs[id].status.Running?
    ensures var t := Perform(cfg, s, id, Heartbeat, beat.now, beat.up).0;
            && Fit(cfg, t, id) && t.jobs[id].status.Running?
            && if beat.up then t.jobs == s.jobs[id := Renewed(cfg, s.jobs[id], beat.now)] else t == s
  {
  }

  lemma {:induction false} BeatenInVain(cfg: Config, s: State, id: string, beats: seq<Tick>)
    requires Fit(cfg, s, id) && s.jobs[id].status.Running? && forall i :: 0 <= i < |beats| ==> !beats[i].up
    ensures Beaten(cfg, s, id, beats) == s
    decreases |beats|
  {
    if beats != [] {
      BeatRenews(cfg, s, id, beats[0]);
      BeatenInVain(cfg, s, id, beats[1..]);
    }
  }

  lemma {:induction false} BeatenLast(cfg: Config, s: State, id: string, beats: seq<Tick>, i: nat)
    requires Fit(cfg, s, id) && s.jobs[id].status.Running? && LastBeat(beats, i)
    ensures Beaten(cfg, s, id, beats).jobs == s.jobs[id := Renewed(cfg, s.jobs[id], beats[i].now)]
    decreases |beats|
  {
    var (first, rest) := (beats[0], beats[1..]);
    var next := Perform(cfg, s, id, Heartbeat, first.now, first.up).0;
    BeatRenews(cfg, s, id, first);
    if i == 0 {
      BeatenInVain(cfg, next, id, rest);
    } else {
      BeatenLast(cfg, next, id, rest, i - 1);
    }
  }

  /** Heartbeats renew the lease of a run to its full length, counted from the last one that the database took. */
  lemma BeatenRenews(cfg: Config, s: State, id: string, beats: seq<Tick>)
    requires Fit(cfg, s, id) && s.jobs[id].status.Running?
    ensures var t := Beaten(cfg, s, id, beats);
            && ((forall i :: 0 <= i < |beats| ==> !beats[i].up) ==> t == s)
            && forall i :: 0 <= i < |beats| && LastBeat(beats, i) ==>
                 t.jobs == s.jobs[id := Renewed(cfg, s.jobs[id], beats[i].now)]
  {
    if forall i :: 0 <= i < |beats| ==> !beats[i].up {
      BeatenInVain(cfg, s, id, beats);
    }
    forall i | 0 <= i < |beats| && LastBeat(beats, i)
      ensures Beaten(cfg, s, id, beats).jobs == s.jobs[id := Renewed(cfg, s.jobs[id], beats[i].now)] {
      BeatenLast(cfg, s, id, beats, i);
    }
  }

  /** Generation and reply both succeed. */
  predicate Succeeds(script: Script) {
    script.generated && script.replied
  }

  /** What the work leaves of the run: Done when generation and reply succeed, the failure of the one that did not
      succeed otherwise. A closing write that the database refuses leaves the run open. */
  predicate WorksTo(job: Job, script: Script, after: Job) {
    if Succeeds(script) && script.close.up then after == Finished(job, script.close.now)
    else if !Succeeds(script) && CanClose(job, script.close)
    then FailsTo(job, if script.generated then "reply" else "generate", ExecutionRetry, script.close.now, after)
    else SameClaim(job, after)
  }

  /** A plugin reports an error unless it completed the job, or buried it and, after a failed generation, said so. */
  predicate Errs(job: Job, script: Script) {
    if Succeeds(script) then !script.close.up
    else !CanClose(job, script.close) || job.retryCount < job.maxRetries || (!script.generated && !script.noticed)
  }

  /** A failure leaves the same of two records of one claim. */
  lemma FailsAlike(job: Job, later: Job, reason: string, code: ReasonCode, now: Time, after: Job)
    requires SameClaim(job, later) && job.status.Running? && FailsTo(later, reason, code, now, after)
    ensures FailsTo(job, reason, code, now, after)
  {
  }

  lemma FailWorks(cfg: Config, s: State, id: string, job: Job, reason: string, tick: Tick)
    requires Fit(cfg, s, id) && s.jobs[id].status.Running? && tick.now != ZERO_TIME && SameClaim(job, s.jobs[id])
    ensures var (t, r) := Perform(cfg, s, id, Fail(reason), tick.now, tick.up);
            && id in t.jobs
            && if CanClose(job, tick)
               then FailsTo(job, reason, ExecutionRetry, tick.now, t.jobs[id]) && r == Ok(t.jobs[id])
               else SameClaim(job, t.jobs[id]) && r.Err?
  {
    FailEnds(cfg, s, id, reason, tick);
    if CanClose(job, tick) {
      FailsAlike(job, s.jobs[id], reason, ExecutionRetry, tick.now,
                 Perform(cfg, s, id, Fail(reason), tick.now, tick.up).0.jobs[id]);
    }
  }

  lemma CompleteWorks(cfg: Config, s: State, id: string, job: Job, tick: Tick)
    requires Fit(cfg, s, id) && s.jobs[id].status.Running? && SameClaim(job, s.jobs[id])
    ensures var (t, r) := Perform(cfg, s, id, Complete, tick.now, tick.up);
            && id in t.jobs
            && if tick.up then t.jobs[id] == Finished(job, tick.now) && r.Ok? else SameClaim(job, t.jobs[id]) && r.Err?
  {
  }

  lemma WorkEnds(cfg: Config, s: State, id: string, script: Script)
    requires Fit(cfg, s, id) && s.jobs[id].status.Running? && Sane(script)
    ensures var (t, failed) := Worked(cfg, s, id, script);
            id in t.jobs && WorksTo(s.jobs[id], script, t.jobs[id]) && failed == Errs(s.jobs[id], script)
  {
    var job := s.jobs[id];
    var begun := Beaten(cfg, s, id, script.firstBeats);
    BeatenKeeps(cfg, s, id, script.firstBeats);
    if !script.generated {
      FailWorks(cfg, begun, id, job, "generate", script.close);
    } else {
      var generated := Beaten(cfg, begun, id, script.secondBeats);
      BeatenKeeps(cfg, begun, id, script.secondBeats);
      FailWorks(cfg, generated, id, job, "reply", script.close);
      CompleteWorks(cfg, generated, id, job, script.close);
    }
  }

  // ---- One visit ----

  /** The run that a plugin works on: the one it finds, or the one that it claims. */
  function RunOf(cfg: Config, job: Job, script: Script): Job {
    if job.status.Running? then job else Claimed(cfg, job, script.claim.now)
  }

  /** The job is there, and it runs, or it waits and the claim reaches the table. */
  predicate TakesOn(s: State, id: string, script: Script) {
    id in s.jobs && (s.jobs[id].status.Running? || (s.jobs[id].status in {Pending, Retrying} && script.claim.up))
  }

  /** A plugin works on a job that it takes on; otherwise it leaves everything as it is and reports an error. */
  lemma VisitEnds(cfg: Config, s: State, id: string, script: Script)
    requires (id in s.jobs ==> Fit(cfg, s, id)) && Sane(script)
    ensures var (t, failed) := Visited(cfg, s, id, script);
            if TakesOn(s, id, script) then
              var run := RunOf(cfg, s.jobs[id], script);
              id in t.jobs && WorksTo(run, script, t.jobs[id]) && failed == Errs(run, script)
            else t == s && failed
  {
    if id in s.jobs && s.jobs[id].status.Running? {
      WorkEnds(cfg, s, id, script);
    } else if id in s.jobs {
      ClaimFits(cfg, s, id, script.claim);
      var (claimed, r) := Perform(cfg, s, id, MarkRunning, script.claim.now, script.claim.up);
      if r.Ok? {
        ClaimIs(cfg, s, id, script.claim);
        WorkEnds(cfg, claimed, id, script);
      }
    }
  }

  lemma ClaimIs(cfg: Config, s: State, id: string, tick: Tick)
    requires Fit(cfg, s, id) && Perform(cfg, s, id, MarkRunning, tick.now, tick.up).1.Ok?
    ensures Perform(cfg, s, id, MarkRunning, tick.now, tick.up).0.jobs
         == s.jobs[id := Claimed(cfg, s.jobs[id], tick.now)]
  {
    assert Decide(cfg, s.jobs[id], MarkRunning, tick.now) == AfterClaim(cfg, s.jobs[id], tick.now);
  }

  // ---- A whole dispatch ----

  /** Visits do nothing more to a job that is over, and none of them delivers it. */
  lemma {:induction false} OverIsLeftAlone(cfg: Config, s: State, id: string, scripts: seq<Script>, delivered: bool)
    requires Fit(cfg, s, id) && s.jobs[id].status in {Done, Dead} && AllSane(scripts)
    ensures Handed(Visits(cfg, id), s, scripts, delivered) == (s, delivered)
    decreases |scripts|
  {
    if scripts != [] {
      if scripts[0].reached {
        VisitedKeeps(cfg, s, id, scripts[0]);
      }
      OverIsLeftAlone(cfg, s, id, scripts[1..], delivered);
    }
  }

  /** Plugins that are not reached do nothing. */
  lemma {:induction false} SkipsTo(visit: (State, Script) -> (State, bool), s: State, scripts: seq<Script>, k: nat)
    requires k <= |scripts| && forall i :: 0 <= i < k ==> !scripts[i].reached
    ensures Handed(visit, s, scripts, false) == Handed(visit, s, scripts[k..], false)
    decreases k
  {
    if k > 0 {
      SkipsTo(visit, s, scripts[1..], k - 1);
      assert scripts[1..][k - 1..] == scripts[k..];
    }
  }

  /** The first plugin that takes the job succeeds, and so does its closing write. */
  predicate FirstSucceeds(scripts: seq<Script>, k: nat) {
    && k < |scripts| && (forall i :: 0 <= i < k ==> !scripts[i].reached)
    && scripts[k].reached && Succeeds(scripts[k]) && scripts[k].close.up
  }

  /** A job that the first plugin to take it completes is Done after the dispatch, with no retry counted, whatever the
      other plugins do; the dispatch counts as failed exactly when the answer of that plugin was lost. */
  lemma DeliveredDispatch(cfg: Config, s: State, job: Job, scripts: seq<Script>, report: Report, k: nat)
    requires Out(cfg, s, job) && AllSane(scripts) && report.fail.now != ZERO_TIME && FirstSucceeds(scripts, k)
    ensures var (t, failed) := Dispatched(cfg, s, job, scripts, report);
            && job.id in t.jobs && t.jobs[job.id] == Finished(job, scripts[k].close.now)
            && failed == !scripts[k].answered
  {
    var (visit, script, rest) := (Visits(cfg, job.id), scripts[k], scripts[k + 1..]);
    SkipsTo(visit, s, scripts, k);
    assert scripts[k..][0] == script && scripts[k..][1..] == rest;
    VisitEnds(cfg, s, job.id, script);
    VisitedKeeps(cfg, s, job.id, script);
    var t := Visited(cfg, s, job.id, script).0;
    OverIsLeftAlone(cfg, t, job.id, rest, script.answered);
    BeatenKeeps(cfg, t, job.id, report.lastBeats);
  }

  /** A job that no plugin takes is failed by the dispatcher. */
  lemma UntakenDispatch(cfg: Config, s: State, job: Job, scripts: seq<Script>, report: Report)
    requires Out(cfg, s, job) && report.fail.now != ZERO_TIME
    requires forall i :: 0 <= i < |scripts| ==> !scripts[i].reached
    ensures var (t, failed) := Dispatched(cfg, s, job, scripts, report);
            && failed && job.id in t.jobs
            && if CanClose(job, report.fail) then
               FailsTo(job, "dispatch", DispatchRetry, report.fail.now, t.jobs[job.id])
               else SameClaim(job, t.jobs[job.id])
  {
    SkipsTo(Visits(cfg, job.id), s, scripts, |scripts|);
    assert scripts[|scripts|..] == [];
    var beaten := Beaten(cfg, s, job.id, report.lastBeats);
    BeatenKeeps(cfg, s, job.id, report.lastBeats);
    ActEnds(cfg, beaten, job.id, "dispatch", report.fail);
    if CanClose(job, report.fail) {
      FailsAlike(job, beaten.jobs[job.id], "dispatch", DispatchRetry, report.fail.now,
                 Act(cfg, beaten, job.id, "dispatch", DispatchReason(beaten.jobs[job.id]), report.fail).0.jobs[job.id]);
    }
  }

  // ---- The report on its own ----

  /** Nobody has touched the claim since: status, budget use, error, times, reason, worker and mark are the same. */
  predicate SameHold(a: Job, b: Job) {
    && a.status == b.status && a.retryCount == b.retryCount && a.lastError == b.lastError
    && a.startedAt == b.startedAt && a.finishedAt == b.finishedAt && a.nextRunAt == b.nextRunAt
    && a.reasonCode == b.reasonCode && a.workerId == b.workerId && a.leaseAcquiredAt == b.leaseAcquiredAt
    && a.deadLetter == b.deadLetter
  }

  /** A fresh job that the dispatcher still finds just as it was handed out. */
  predicate StillFresh(original: Job, stored: Job) {
    && stored.status.Pending? && SameHold(original, stored) && original.leaseExpiresAt == stored.leaseExpiresAt
    && original.heartbeatAt == stored.heartbeatAt
  }

  /** What an uninterrupted report does to the job that it finds: it claims and then fails a fresh one, fails a run
      that is not known to belong to another claim, and leaves anything else alone. */
  lemma ReportExactly(cfg: Config, s: State, original: Job, reason: string, claim: Tick, fail: Tick)
    requires original.id in s.jobs ==> Fit(cfg, s, original.id)
    requires claim.now != ZERO_TIME && fail.now != ZERO_TIME
    ensures var ((t, error), id) := (FailDispatch(cfg, s, original, reason, claim, fail), original.id);
            if id !in s.jobs then t == s && error == Some(NotFound)
            else
              var stored := s.jobs[id];
              if StillFresh(original, stored) then
                if !claim.up then t == s && error == Some(PersistFailed)
                else
                  var run := Claimed(cfg, stored, claim.now);
                  && id in t.jobs
                  && if CanClose(run, fail)
                     then FailsTo(run, reason, DispatchRetry, fail.now, t.jobs[id]) && error == None
                     else t.jobs[id] == run && error == Some(PersistFailed)
              else if stored.status.Running? && (original.status.Running? ==> SameHold(original, stored))
              then Fails(s, t, id, reason, DispatchRetry, fail)
                   && error == if CanClose(stored, fail) then None else Some(PersistFailed)
              else t == s && error == None
  {
    var id := original.id;
    if id in s.jobs {
      var stored := s.jobs[id];
      if StillFresh(original, stored) {
        FreshReport(cfg, s, original, reason, claim, fail);
      } else if stored.status.Running? {
        ActEnds(cfg, s, id, reason, fail);
      }
    }
  }

  lemma FreshReport(cfg: Config, s: State, original: Job, reason: string, claim: Tick, fail: Tick)
    requires Fit(cfg, s, original.id) && StillFresh(original, s.jobs[original.id])
    requires claim.now != ZERO_TIME && fail.now != ZERO_TIME
    ensures var ((t, error), id) := (FailDispatch(cfg, s, original, reason, claim, fail), original.id);
            if !claim.up then t == s && error == Some(PersistFailed)
            else
              var run := Claimed(cfg, s.jobs[id], claim.now);
              && id in t.jobs
              && if CanClose(run, fail) then FailsTo(run, reason, DispatchRetry, fail.now, t.jobs[id]) && error == None
                 else t.jobs[id] == run && error == Some(PersistFailed)
  {
    var id := original.id;
    ClaimFits(cfg, s, id, claim);
    if claim.up {
      ClaimIs(cfg, s, id, claim);
      ActEnds(cfg, Perform(cfg, s, id, MarkRunning, claim.now, claim.up).0, id, reason, fail);
    }
  }
}
