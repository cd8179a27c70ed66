/** The in-memory job queue with its write-through store (packages/runtime-core/job_queue.go).
    `now` is the queue's clock and `up` tells whether the database accepts the write. */
module JobQueues {
  import opened Base
  import opened Jobs
  import opened JobStores
  import opened QueueSpec

  datatype Recovery = Recovery(
    recoveredAt: Time,
    totalJobs: nat,
    recoveredJobs: nat,
    retriedJobs: nat,
    deadJobs: nat,
    statusCounts: map<Status, nat>)

  function CountStatus(jobs: seq<Job>, status: Status): nat {
    if jobs == [] then 0 else
    CountStatus(jobs[..|jobs| - 1], status) + if jobs[|jobs| - 1].status == status then 1 else 0
  }

  function Counted(counts: map<Status, nat>, status: Status): nat {
    if status in counts then counts[status] else 0
  }

  function CountRunning(jobs: seq<Job>): nat {
    CountStatus(jobs, Running)
  }

  /** What the recovery snapshot of a finished restart says about the rows it read. */
  ghost predicate Summarizes(r: Recovery, listing: seq<Job>, at: Time) {
    var recovered := RecoveredAll(listing, at);
    && r.recoveredAt == at
    && r.totalJobs == |listing|
    && r.recoveredJobs == CountRunning(listing)
    && r.retriedJobs == CountStatus(recovered, Retrying)
    && r.deadJobs == |DeadIn(recovered)|
    && forall status :: Counted(r.statusCounts, status) == CountStatus(recovered, status)
  }

  /** The snapshot after one more row. */
  function Tally(r: Recovery, job: Job, recovered: Job): Recovery {
    r.(totalJobs := r.totalJobs + 1,
       recoveredJobs := r.recoveredJobs + if job.status.Running? then 1 else 0,
       retriedJobs := r.retriedJobs + if recovered.status.Retrying? then 1 else 0,
       deadJobs := r.deadJobs + if recovered.status.Dead? then 1 else 0,
       statusCounts := r.statusCounts[recovered.status := Counted(r.statusCounts, recovered.status) + 1])
  }

  /** Memory and snapshot built from the first rows of a listing. */
  ghost predicate Rebuilt(restored: map<string, Job>, buried: seq<Job>, r: Recovery, prefix: seq<Job>, at: Time) {
    restored == ById(RecoveredAll(prefix, at)) && buried == DeadIn(RecoveredAll(prefix, at))
      && Summarizes(r, prefix, at)
  }

  lemma RebuildStep(restored: map<string, Job>, buried: seq<Job>, r: Recovery, listing: seq<Job>, i: nat, at: Time)
    requires i < |listing| && Rebuilt(restored, buried, r, listing[..i], at)
    ensures var job := Recovered(listing[i], at);
            Rebuilt(restored[job.id := job], buried + if job.status.Dead? then [job] else [],
                    Tally(r, listing[i], job), listing[..i + 1], at)
  {
    assert RecoveredAll(listing[..i + 1], at)[..i] == RecoveredAll(listing[..i], at);
    assert listing[..i + 1][..i] == listing[..i];
  }

  class JobQueue {
    var jobs: map<string, Job>
    var dead: seq<Job>
    var lastRecovery: Recovery
    const workerId: string
    const leaseTTL: int
    const store: JobStore

    constructor (workerId: string, leaseTTL: int, store: JobStore)
      ensures this.store == store && Cfg() == Config(workerId, leaseTTL)
      ensures State() == QueueSpec.State(map[], [], store.State())
    {
      this.workerId, this.leaseTTL, this.store := workerId, leaseTTL, store;
      jobs, dead, lastRecovery := map[], [], Recovery(ZERO_TIME, 0, 0, 0, 0, map[]);
    }

    function Cfg(): Config {
      Config(workerId, leaseTTL)
    }

    function State(): QueueSpec.State
      reads this, store
    {
      QueueSpec.State(jobs, dead, store.State())
    }

    method Enqueue(job: Job, up: bool) returns (error: Option<QueueError>)
      modifies this`jobs, store
      ensures (State(), error) == QueueSpec.Enqueue(old(State()), job, up)
    {
      if !ValidJob(job) {
        return Some(InvalidJob);
      }
      var entry := job;
      if entry.status.Blank? {
        entry := entry.(status := Pending);
      }
      if entry.id in jobs {
        return Some(AlreadyExists);
      }
      var saved := store.SaveJob(entry, up);
      if !saved {
        return Some(PersistFailed);
      }
      jobs := jobs[entry.id := entry];
      error := None;
    }

    method Inspect(id: string) returns (r: Result<Job, QueueError>)
      ensures r == if id in jobs then Ok(jobs[id]) else Err(NotFound)
    {
      r := if id in jobs then Ok(jobs[id]) else Err(NotFound);
    }

    /** Persists a decided record and publishes it in memory. */
    method Commit(id: string, updated: Job, ghost request: Request, up: bool) returns (r: Result<Job, QueueError>)
      requires !updated.status.Dead? && !request.RetryDeadLetter?
      modifies this`jobs, store
      ensures (State(), r) == Settle(old(State()), id, request, Some(updated), up)
    {
      var saved := store.SaveJob(updated, up);
      if !saved {
        return Err(PersistFailed);
      }
      jobs := jobs[id := updated];
      r := Ok(updated);
    }

    /** Persists a dead job together with its alert and appends it to the dead list. */
    method Bury(id: string, updated: Job, ghost request: Request, up: bool) returns (r: Result<Job, QueueError>)
      requires updated.status.Dead?
      modifies this`jobs, this`dead, store
      ensures (State(), r) == Settle(old(State()), id, request, Some(updated), up)
    {
      var saved := store.PersistJobDeadLetter(updated, DeadLetterAlert(updated), up);
      if !saved {
        return Err(PersistFailed);
      }
      jobs := jobs[id := updated];
      dead := dead + [updated];
      r := Ok(updated);
    }

    method Heartbeat(id: string, now: Time, up: bool) returns (r: Result<Job, QueueError>)
      modifies this`jobs, store
      ensures (State(), r) == Perform(Cfg(), old(State()), id, Request.Heartbeat, now, up)
    {
      if id !in jobs {
        return Err(NotFound);
      }
      if !jobs[id].status.Running? {
        return Err(Refused);
      }
      r := Commit(id, RenewLease(Cfg(), jobs[id], now), Request.Heartbeat, up);
    }

    /** The move to Running stamps a lease; the move to Done drops it. */
    method Move(id: string, next: Status, now: Time, up: bool) returns (r: Result<Job, QueueError>)
      requires next.Running? || next.Done?
      modifies this`jobs, store
      ensures var request := if next.Running? then Request.MarkRunning else Request.Complete;
              (State(), r) == Perform(Cfg(), old(State()), id, request, now, up)
    {
      if id !in jobs {
        return Err(NotFound);
      }
      var moved := Transition(jobs[id], next, now, "");
      if moved.None? {
        return Err(Refused);
      }
      var updated := if next.Running? then StampRunning(Cfg(), moved.value, now) else ClearOwnership(moved.value);
      r := Commit(id, updated, if next.Running? then Request.MarkRunning else Request.Complete, up);
    }

    method MarkRunning(id: string, now: Time, up: bool) returns (r: Result<Job, QueueError>)
      modifies this`jobs, store
      ensures (State(), r) == Perform(Cfg(), old(State()), id, Request.MarkRunning, now, up)
    {
      r := Move(id, Running, now, up);
    }

    method Complete(id: string, now: Time, up: bool) returns (r: Result<Job, QueueError>)
      modifies this`jobs, store
      ensures (State(), r) == Perform(Cfg(), old(State()), id, Request.Complete, now, up)
    {
      r := Move(id, Done, now, up);
    }

    method Retry(id: string, now: Time, up: bool) returns (r: Result<Job, QueueError>)
      modifies this`jobs, store
      ensures (State(), r) == Perform(Cfg(), old(State()), id, Request.Retry, now, up)
    {
      if id !in jobs {
        return Err(NotFound);
      }
      var moved := Transition(jobs[id], Running, now, "");
      if moved.None? {
        return Err(Refused);
      }
      r := Commit(id, StampRunning(Cfg(), moved.value, now), Request.Retry, up);
    }

    /** Counts a failed attempt: one more retry while the budget lasts, else the dead-letter list. */
    method FailWithReasonCode(id: string, reason: string, code: ReasonCode, now: Time, up: bool)
      returns (r: Result<Job, QueueError>)
      modifies this`jobs, this`dead, store
      ensures (State(), r) == Perform(Cfg(), old(State()), id, FailWith(reason, code), now, up)
    {
      if id !in jobs {
        return Err(NotFound);
      }
      var job := jobs[id];
      assert Decide(Cfg(), job, FailWith(reason, code), now) == AfterFailure(job, reason, code, now);
      if job.retryCount < job.maxRetries {
        var nextRun := now + Backoff(job.retryCount + 1);
        var moved := Transition(job, Retrying, nextRun, reason);
        if moved.None? {
          return Err(Refused);
        }
        r := Commit(id, ApplyFailure(moved.value, code), FailWith(reason, code), up);
        return;
      }
      var moved := Transition(job, Dead, now, reason);
      if moved.None? {
        return Err(Refused);
      }
      r := Bury(id, ApplyFailure(moved.value, DeadReason(code)), FailWith(reason, code), up);
    }

    method Fail(id: string, reason: string, now: Time, up: bool) returns (r: Result<Job, QueueError>)
      modifies this`jobs, this`dead, store
      ensures (State(), r) == Perform(Cfg(), old(State()), id, Request.Fail(reason), now, up)
    {
      if id !in jobs {
        return Err(NotFound);
      }
      r := FailWithReasonCode(id, reason, ExecutionReason(jobs[id]), now, up);
    }

    method Timeout(id: string, now: Time, up: bool) returns (r: Result<Job, QueueError>)
      modifies this`jobs, this`dead, store
      ensures (State(), r) == Perform(Cfg(), old(State()), id, Request.Timeout, now, up)
    {
      r := FailWithReasonCode(id, "timeout", TimedOut, now, up);
    }

    /** Cuts the first entry for `id` out of the dead list. */
    method RemoveDeadLetterJob(id: string)
      modifies this`dead
      ensures dead == RemoveFirst(old(dead), id)
    {
      var index := 0;
      while index < |dead|
        invariant 0 <= index <= |dead| && dead == old(dead)
        invariant RemoveFirst(dead, id) == dead[..index] + RemoveFirst(dead[index..], id)
      {
        if dead[index].id == id {
          dead := dead[..index] + dead[index + 1..];
          return;
        }
        index := index + 1;
      }
    }

    method RetryDeadLetter(id: string, now: Time, up: bool) returns (r: Result<Job, QueueError>)
      modifies this`jobs, this`dead, store
      ensures (State(), r) == Perform(Cfg(), old(State()), id, Request.RetryDeadLetter, now, up)
    {
      if id !in jobs {
        return Err(NotFound);
      }
      if !jobs[id].status.Dead? || !jobs[id].deadLetter {
        return Err(Refused);
      }
      var updated := Revive(jobs[id]);
      var saved := store.PersistJobDeadLetterRetry(updated, DeadLetterAlertId(updated.id), up);
      if !saved {
        return Err(PersistFailed);
      }
      jobs := jobs[id := updated];
      RemoveDeadLetterJob(id);
      r := Ok(updated);
    }

    method Pause(id: string, now: Time, up: bool) returns (r: Result<Job, QueueError>)
      modifies this`jobs, store
      ensures (State(), r) == Perform(Cfg(), old(State()), id, Request.Pause, now, up)
    {
      if id !in jobs {
        return Err(NotFound);
      }
      if !jobs[id].status.Pending? && !jobs[id].status.Retrying? {
        return Err(Refused);
      }
      var moved := Transition(jobs[id], Paused, now, "");
      if moved.None? {
        return Err(Refused);
      }
      r := Commit(id, ClearOwnership(moved.value), Request.Pause, up);
    }

    method Resume(id: string, now: Time, up: bool) returns (r: Result<Job, QueueError>)
      modifies this`jobs, store
      ensures (State(), r) == Perform(Cfg(), old(State()), id, Request.Resume, now, up)
    {
      if id !in jobs {
        return Err(NotFound);
      }
      if !jobs[id].status.Paused? {
        return Err(Refused);
      }
      var next := Pending;
      if IsSet(jobs[id].nextRunAt) {
        next := Retrying;
      }
      var moved := Transition(jobs[id], next, now, "");
      if moved.None? {
        return Err(Refused);
      }
      var updated := moved.value;
      if next.Pending? {
        updated := updated.(reasonCode := NoReason);
      }
      r := Commit(id, ClearOwnership(updated), Request.Resume, up);
    }

    method Cancel(id: string, now: Time, up: bool) returns (r: Result<Job, QueueError>)
      modifies this`jobs, store
      ensures (State(), r) == Perform(Cfg(), old(State()), id, Request.Cancel, now, up)
    {
      if id !in jobs {
        return Err(NotFound);
      }
      if !jobs[id].status.Pending? && !jobs[id].status.Retrying? {
        return Err(Refused);
      }
      var moved := Transition(jobs[id], Cancelled, now, "");
      if moved.None? {
        return Err(Refused);
      }
      r := Commit(id, ClearOwnership(moved.value), Request.Cancel, up);
    }

    /** Recovers one row; a row that was not running is left alone. */
    method RecoverRow(job: Job, at: Time, up: bool) returns (saved: bool)
      modifies store
      ensures !job.status.Running? ==> saved && store.State() == old(store.State())
      ensures job.status.Running? ==>
                match PersistRecovered(old(store.State()), Recovered(job, at), up)
                case Some(t) => saved && store.State() == t
                case None => !saved && store.State() == old(store.State())
    {
      if !job.status.Running? {
        return true;
      }
      var recovered := Recovered(job, at);
      if recovered.status.Dead? {
        saved := store.PersistJobDeadLetter(recovered, DeadLetterAlert(recovered), up);
      } else {
        saved := store.SaveJob(recovered, up);
      }
    }

    /** Rebuilds memory from the rows `listing` of the job table, failing every run that was cut short. */
    method Restore(listing: seq<Job>, at: Time, failing: set<string>) returns (ok: bool)
      requires IsListing(listing, store.rows)
      modifies this`jobs, this`dead, this`lastRecovery, store
      ensures (State(), ok) == RestoreFrom(old(State()), listing, at, failing)
      ensures if ok then Summarizes(lastRecovery, listing, at) else lastRecovery == old(lastRecovery)
    {
      var restored: map<string, Job> := map[];
      var buried: seq<Job> := [];
      var recovery := Recovery(at, 0, 0, 0, 0, map[]);
      for i := 0 to |listing|
        invariant jobs == old(jobs) && dead == old(dead) && lastRecovery == old(lastRecovery)
        invariant SweepRows(old(store.State()), listing, at, failing) == SweepRows(store.State(), listing[i..], at,
                  failing)
        invariant Rebuilt(restored, buried, recovery, listing[..i], at)
      {
        assert listing[i..][1..] == listing[i + 1..];
        var saved := RecoverRow(listing[i], at, listing[i].id !in failing);
        if !saved {
          return false;
        }
        var recovered := Recovered(listing[i], at);
        RebuildStep(restored, buried, recovery, listing, i, at);
        restored := restored[recovered.id := recovered];
        if recovered.status.Dead? {
          buried := buried + [recovered];
        }
        recovery := Tally(recovery, listing[i], recovered);
      }
      assert listing[..|listing|] == listing;
      jobs, dead, lastRecovery := restored, buried, recovery;
      ok := true;
    }

    /** The jobs that may start at `at`, oldest first; map iteration order does not matter. */
    method ReadyJobs(requested: Time, now: Time) returns (items: seq<Job>)
      requires forall id :: id in jobs ==> jobs[id].id == id
      ensures IsReadyList(items, jobs, if requested == ZERO_TIME then now else requested)
    {
      var at := if requested == ZERO_TIME then now else requested;
      items := [];
      var rest := jobs.Keys;
      while rest != {}
        invariant rest <= jobs.Keys
        invariant forall i, j :: 0 <= i < j < |items| ==> Earlier(items[i], items[j])
        invariant forall job :: job in items <==> job.id in jobs.Keys - rest && jobs[job.id] == job && IsReady(job, at)
        decreases rest
      {
        var id :| id in rest;
        if IsReady(jobs[id], at) {
          items := Insert(items, jobs[id]);
        }
        rest := rest - {id};
      }
    }

    /** Inserts into a list kept in dispatch order. */
    static method Insert(items: seq<Job>, job: Job) returns (r: seq<Job>)
      requires forall i, j :: 0 <= i < j < |items| ==> Earlier(items[i], items[j])
      requires forall other :: other in items ==> other.id != job.id
      ensures forall i, j :: 0 <= i < j < |r| ==> Earlier(r[i], r[j])
      ensures forall other :: other in r <==> other == job || other in items
    {
      var k := |items|;
      while k > 0 && Earlier(job, items[k - 1])
        invariant 0 <= k <= |items|
        invariant forall i :: k <= i < |items| ==> Earlier(job, items[i])
      {
        k := k - 1;
      }
      r := items[..k] + [job] + items[k..];
      forall i | 0 <= i < k ensures Earlier(items[i], job) {
        EarlierTotal(items[k - 1], job);
        if i < k - 1 {
          EarlierTransitive(items[i], items[k - 1], job);
        }
      }
      assert forall other :: other in items ==> other in items[..k] || other in items[k..];
    }
  }

  // ---- The dispatch order is a strict total order ----

  lemma {:induction false} BeforeTotal(a: string, b: string)
    ensures a != b ==> Before(a, b) || Before(b, a)
    ensures !(Before(a, b) && Before(b, a)) && !Before(a, a)
  {
    if a != "" && b != "" {
      BeforeTotal(a[1..], b[1..]);
      assert a == [a[0]] + a[1..] && b == [b[0]] + b[1..];
    }
    if a != "" {
      BeforeTotal(a[1..], a[1..]);
    }
  }

  lemma {:induction false} BeforeTransitive(a: string, b: string, c: string)
    requires Before(a, b) && Before(b, c)
    ensures Before(a, c)
  {
    if a != "" && a[0] == b[0] == c[0] {
      BeforeTransitive(a[1..], b[1..], c[1..]);
    }
  }

  lemma EarlierTotal(a: Job, b: Job)
    ensures a.id != b.id ==> Earlier(a, b) || Earlier(b, a)
    ensures !(Earlier(a, b) && Earlier(b, a))
  {
    BeforeTotal(a.id, b.id);
  }

  lemma EarlierTransitive(a: Job, b: Job, c: Job)
    requires Earlier(a, b) && Earlier(b, c)
    ensures Earlier(a, c)
  {
    if a.createdAt == b.createdAt == c.createdAt {
      BeforeTransitive(a.id, b.id, c.id);
    }
  }

  lemma Members(ys: seq<Job>)
    ensures forall i :: 0 <= i < |ys| ==> ys[i] in ys
  {
  }

  /** There is one ready list: its contents and order are fixed by the jobs and the instant. */
  lemma {:induction false} ReadyListIsUnique(xs: seq<Job>, ys: seq<Job>)
    requires forall i, j :: 0 <= i < j < |xs| ==> Earlier(xs[i], xs[j])
    requires forall i, j :: 0 <= i < j < |ys| ==> Earlier(ys[i], ys[j])
    requires forall job :: job in xs <==> job in ys
    ensures xs == ys
  {
    if xs == [] {
      Members(ys);
      return;
    }
    assert xs[0] in ys && ys[0] in xs;
    var i :| 0 <= i < |ys| && ys[i] == xs[0];
    var j :| 0 <= j < |xs| && xs[j] == ys[0];
    EarlierTotal(xs[0], ys[0]);
    assert xs[0] == ys[0];
    forall job ensures job in xs[1..] <==> job in ys[1..] {
      EarlierTotal(xs[0], xs[0]);
      if job in xs[1..] {
        var k :| 1 <= k < |xs| && xs[k] == job;
        assert Earlier(xs[0], job) && job in xs;
      }
      if job in ys[1..] {
        var k :| 1 <= k < |ys| && ys[k] == job;
        assert Earlier(ys[0], job) && job in ys;
      }
    }
    ReadyListIsUnique(xs[1..], ys[1..]);
  }

  /** Every valid job has one of the named statuses, so the counts add up to the total. */
  lemma {:induction false} StatusCountsAddUp(jobs: seq<Job>)
    requires forall job :: job in jobs ==> ValidJob(job) && !job.status.Blank?
    ensures CountStatus(jobs, Pending) + CountStatus(jobs, Running) + CountStatus(jobs, Retrying)
            + CountStatus(jobs, Paused)
            + CountStatus(jobs, Cancelled) + CountStatus(jobs, Failed) + CountStatus(jobs, Dead)
              + CountStatus(jobs, Done)
            == |jobs|
    ensures CountStatus(jobs, Dead) == |DeadIn(jobs)|
  {
    if jobs != [] {
      assert jobs[|jobs| - 1] in jobs;
      StatusCountsAddUp(jobs[..|jobs| - 1]);
    }
  }
}
