/** What each operation of a reachable queue answers and leaves, field by field. */
module QueueOutcomes {
  import opened Base
  import opened Jobs
  import opened JobStores
  import opened QueueSpec
  import opened QueueRuns
  import opened QueueLaws
  import opened AlertLaws

  // ---- Records without a lease ----

  /** A job without its lease, with the mark of what ended it. */
  function Idle(job: Job, text: string, code: ReasonCode): Job {
    job.(lastError := text, reasonCode := code, workerId := "", leaseAcquiredAt := None, leaseExpiresAt := None,
         heartbeatAt := None)
  }

  lemma RetriedIs(job: Job, text: string, code: ReasonCode, at: Time)
    requires job.status.Running?
    ensures Transition(job, Retrying, at, text).Some?
    ensures ApplyFailure(Transition(job, Retrying, at, text).value, code)
         == Idle(job, text, code).(status := Retrying, retryCount := job.retryCount + 1, nextRunAt := Some(at))
  {
  }

  lemma BuriedIs(job: Job, text: string, code: ReasonCode, at: Time)
    requires job.status in {Running, Pending, Retrying}
    ensures Transition(job, Dead, at, text).Some?
    ensures ApplyFailure(Transition(job, Dead, at, text).value, code)
         == Idle(job, text, code).(status := Dead, finishedAt := Some(at), deadLetter := true)
  {
  }

  // ---- Failure reports ----

  /** The reason code of a job that dies: a code that announces a retry becomes the one that announces the end. */
  predicate DiesOf(code: ReasonCode, left: ReasonCode) {
    match code
    case DispatchRetry => left == DispatchDead
    case ExecutionRetry => left == ExecutionDead
    case _ => left == code
  }

  /** What a failure with this text and code makes of a job, in every field. A run with budget left waits one second
      for each retry it has then used; a paused job keeps its due time, and its error if the new one is blank; a job
      whose budget is spent is dead. */
  predicate FailsTo(job: Job, reason: string, code: ReasonCode, now: Time, after: Job) {
    var due := Some(now + (job.retryCount + 1) * SECOND);
    if job.retryCount == job.maxRetries then
      && DiesOf(code, after.reasonCode)
      && after == Idle(job, reason, after.reasonCode).(status := Dead, finishedAt := Some(now), deadLetter := true)
    else if job.status.Running? then
      after == Idle(job, reason, code).(status := Retrying, retryCount := job.retryCount + 1, nextRunAt := due)
    else
      after == job.(status := Retrying, lastError := if IsBlank(reason) then job.lastError else reason,
                    reasonCode := code, nextRunAt := if job.nextRunAt.Some? then job.nextRunAt else due)
  }

  /** What an accepted failure report leaves: its text and code are the caller's, those of a timeout, or, for a plain
      failure, the code of a retry or of the end. */
  lemma AfterFailureReport(cfg: Config, job: Job, request: Request, clock: Time, now: Time)
    requires Shape(cfg, job, clock) && clock <= now && now > ZERO_TIME && Reports(request)
    requires Decide(cfg, job, request, now).Some?
    ensures var after := Decide(cfg, job, request, now).value;
            match request
            case Fail(reason) => FailsTo(job, reason, ExecutionRetry, now, after)
            case FailWith(reason, code) => FailsTo(job, reason, code, now, after)
            case Timeout => FailsTo(job, "timeout", TimedOut, now, after)
            case _ => false
  {
    match request
    case Fail(reason) => FailureLeaves(cfg, job, reason, ExecutionReason(job), clock, now);
    case FailWith(reason, code) => FailureLeaves(cfg, job, reason, code, clock, now);
    case Timeout => FailureLeaves(cfg, job, "timeout", TimedOut, clock, now);
    case _ =>
  }

  lemma FailureLeaves(cfg: Config, job: Job, reason: string, code: ReasonCode, clock: Time, now: Time)
    requires Shape(cfg, job, clock) && clock <= now && now > ZERO_TIME && AfterFailure(job, reason, code, now).Some?
    ensures FailsTo(job, reason, code, now, AfterFailure(job, reason, code, now).value)
  {
    var due := now + (job.retryCount + 1) * SECOND;
    if job.retryCount == job.maxRetries {
      BuriedIs(job, reason, DeadReason(code), now);
    } else if job.status.Running? {
      RetriedIs(job, reason, code, due);
    } else {
      var moved := Transition(job, Retrying, due, reason).value;
      assert AfterFailure(job, reason, code, now).value == ApplyFailure(moved, code);
    }
  }

  /** A heartbeat renews the lease of any run for its full length, and gives a run that has no lease or no worker one of
      this queue; a job that does not run is refused. */
  lemma HeartbeatExactly(cfg: Config, job: Job, now: Time)
    ensures Decide(cfg, job, Heartbeat, now)
         == if !job.status.Running? then None
            else Some(job.(heartbeatAt := Some(now), leaseExpiresAt := Some(now + cfg.leaseTTL),
                           leaseAcquiredAt := if job.leaseAcquiredAt.None? || job.leaseAcquiredAt.value == ZERO_TIME
                                              then Some(now) else job.leaseAcquiredAt,
                           workerId := if IsBlank(job.workerId) then cfg.workerId else job.workerId))
  {
  }

  // ---- Recovery ----

  /** What a restart writes into the record of a run that it cuts short. */
  function Epitaph(cfg: Config, expired: bool): string {
    if !expired then "runtime restarted during job execution"
    else "worker " + (if IsBlank(cfg.workerId) then "unknown-worker" else TrimSpace(cfg.workerId))
         + " lease abandoned during runtime restart"
  }

  /** What a restart makes of a job: a run is retried at once, at the price of a retry, while its budget lasts, and is
      dead otherwise; a run whose lease was over is put down to its worker. Anything else stays as it is. */
  predicate RecoversTo(cfg: Config, job: Job, at: Time, after: Job) {
    if !job.status.Running? then after == job
    else
      && job.leaseExpiresAt.Some?
      && var expired := job.leaseExpiresAt.value != ZERO_TIME && job.leaseExpiresAt.value <= at;
      && var idle := Idle(job, Epitaph(cfg, expired), if expired then WorkerAbandoned else RuntimeRestart);
      after == if job.retryCount < job.maxRetries
               then idle.(status := Retrying, retryCount := job.retryCount + 1, nextRunAt := Some(at))
               else idle.(status := Dead, finishedAt := Some(at), deadLetter := true)
  }

  lemma RecoveryLeaves(cfg: Config, job: Job, clock: Time, at: Time)
    requires Shape(cfg, job, clock)
    ensures RecoversTo(cfg, job, at, Recovered(job, at))
  {
    if job.status.Running? {
      var (text, code) := (RecoveryText(job, at), RecoveryReason(job, at));
      if job.retryCount < job.maxRetries {
        RetriedIs(job, text, code, at);
      } else {
        BuriedIs(job, text, code, at);
      }
    }
  }

  /** After a finished restart memory holds exactly the jobs of the table, each as it was or recovered. */
  lemma RestartLeaves(cfg: Config, w: World, boot: Event, id: string)
    requires Healthy(cfg, w) && Legal(w, boot) && boot.op.Boot? && Step(cfg, w, boot).alive
    ensures var w' := Step(cfg, w, boot);
            && (id in w'.s.jobs <==> id in w.s.tables.rows)
            && (id in w'.s.jobs ==>
                  && id in w'.s.tables.rows && w'.s.tables.rows[id] == w'.s.jobs[id]
                  && RecoversTo(cfg, w.s.tables.rows[id], boot.now, w'.s.jobs[id]))
  {
    StepKeepsHealthy(cfg, w, boot);
    RestartRebuilds(cfg, w, boot.op.listing, boot.now, boot.op.failing);
    RestoredMemory(w.s.tables.rows, boot.op.listing, boot.now);
    if id in w.s.tables.rows {
      RecoveryLeaves(cfg, w.s.tables.rows[id], w.clock, boot.now);
    }
  }

  /** A row that a restart cannot write back: it ran, and the write is refused, or the death of an all-space id. */
  predicate Unwritable(job: Job, failing: set<string>) {
    job.status.Running? && (job.id in failing || (job.retryCount == job.maxRetries && IsBlank(job.id)))
  }

  lemma RecoveryIsWritten(cfg: Config, t: Tables, job: Job, clock: Time, at: Time, failing: set<string>)
    requires Shape(cfg, job, clock) && job.status.Running? && clock <= at && at > ZERO_TIME
    ensures PersistRecovered(t, Recovered(job, at), job.id !in failing).Some? <==> !Unwritable(job, failing)
  {
    RecoveredKeepsShape(cfg, job, clock, at);
    DeadLetterAlertIsStorable(Recovered(job, at));
  }

  lemma {:induction false} SweepIsDone(cfg: Config, t: Tables, listing: seq<Job>, clock: Time, at: Time,
                                       failing: set<string>)
    requires clock <= at && at > ZERO_TIME && forall i :: 0 <= i < |listing| ==> Shape(cfg, listing[i], clock)
    ensures SweepRows(t, listing, at, failing).done <==>
            forall i :: 0 <= i < |listing| ==> !Unwritable(listing[i], failing)
    decreases |listing|
  {
    if listing != [] {
      var (job, rest) := (listing[0], listing[1..]);
      assert forall i :: 0 < i < |listing| ==> listing[i] == rest[i - 1];
      if !job.status.Running? {
        SweepIsDone(cfg, t, rest, clock, at, failing);
      } else {
        RecoveryIsWritten(cfg, t, job, clock, at, failing);
        var saved := PersistRecovered(t, Recovered(job, at), job.id !in failing);
        if saved.Some? {
          SweepIsDone(cfg, saved.value, rest, clock, at, failing);
        }
      }
    }
  }

  /** A restart succeeds exactly when every run that it cuts short can be written back; otherwise it leaves no queue. */
  lemma RestartsExactly(cfg: Config, w: World, boot: Event)
    requires Healthy(cfg, w) && Legal(w, boot) && boot.op.Boot?
    ensures var w' := Step(cfg, w, boot);
            && (w'.alive <==> forall id :: id in w.s.tables.rows ==>
                  !Unwritable(w.s.tables.rows[id], boot.op.failing))
            && (!w'.alive ==> w'.s.jobs == map[] && w'.s.dead == [])
  {
    var (listing, rows, failing) := (boot.op.listing, w.s.tables.rows, boot.op.failing);
    SweepIsDone(cfg, w.s.tables, listing, w.clock, boot.now, failing);
    if id :| id in rows && Unwritable(rows[id], failing) {
      assert rows[id] in listing;
    }
    if i :| 0 <= i < |listing| && Unwritable(listing[i], failing) {
      assert Unwritable(rows[listing[i].id], failing);
    }
  }

  // ---- Ready jobs ----

  /** A stored job is listed as ready exactly when it is Pending, or waits for a retry that is due. */
  lemma ReadyExactly(cfg: Config, w: World, items: seq<Job>, at: Time, id: string)
    requires Healthy(cfg, w) && w.alive && IsReadyList(items, w.s.jobs, at)
    ensures (exists i :: 0 <= i < |items| && items[i].id == id) <==>
              && id in w.s.jobs
              && (w.s.jobs[id].status.Pending?
                  || (w.s.jobs[id].status.Retrying? && w.s.jobs[id].nextRunAt.Some?
                      && w.s.jobs[id].nextRunAt.value <= at))
    ensures forall i :: 0 <= i < |items| ==> items[i].id in w.s.jobs && w.s.jobs[items[i].id] == items[i]
  {
    forall i | 0 <= i < |items| ensures items[i].id in w.s.jobs && w.s.jobs[items[i].id] == items[i] {
      assert items[i] in items;
    }
    if id in w.s.jobs {
      assert Shape(cfg, w.s.jobs[id], w.clock);
      if IsReady(w.s.jobs[id], at) {
        assert w.s.jobs[id] in items;
      }
    }
  }

  /** The byte order of ids: at the first place where they differ, or as a shorter prefix. */
  predicate DiffersAt(a: string, b: string, k: nat) {
    k <= |a| && k < |b| && a[..k] == b[..k] && (k == |a| || a[k] < b[k])
  }

  lemma {:induction false} BeforeExactly(a: string, b: string)
    ensures Before(a, b) <==> exists k: nat :: DiffersAt(a, b, k)
    decreases |a|
  {
    if Before(a, b) {
      if a == "" || a[0] < b[0] {
        assert DiffersAt(a, b, 0);
      } else {
        BeforeExactly(a[1..], b[1..]);
        var k: nat :| DiffersAt(a[1..], b[1..], k);
        assert a[..k + 1] == [a[0]] + a[1..][..k] && b[..k + 1] == [b[0]] + b[1..][..k];
        assert DiffersAt(a, b, k + 1);
      }
    }
    if k: nat :| DiffersAt(a, b, k) {
      if k > 0 {
        assert a[0] == a[..k][0] && b[0] == b[..k][0];
        assert a[1..][..k - 1] == a[..k][1..] && b[1..][..k - 1] == b[..k][1..];
        assert DiffersAt(a[1..], b[1..], k - 1);
        BeforeExactly(a[1..], b[1..]);
      }
    }
  }

  /** The ready list runs from the oldest job to the newest; jobs of the same instant are in the byte order of ids. */
  lemma ReadyInOrder(items: seq<Job>, jobs: map<string, Job>, at: Time, i: nat, j: nat)
    requires IsReadyList(items, jobs, at) && i < j < |items|
    ensures items[i].createdAt <= items[j].createdAt
    ensures items[i].createdAt == items[j].createdAt ==> exists k: nat :: DiffersAt(items[i].id, items[j].id, k)
  {
    BeforeExactly(items[i].id, items[j].id);
  }

  /** A run that fails with budget left is ready again exactly once its back-off is over. */
  lemma FailedRunIsReady(cfg: Config, w: World, id: string, request: Request, now: Time, items: seq<Job>, at: Time)
    requires Healthy(cfg, w) && w.alive && w.clock <= now && now > ZERO_TIME && Reports(request)
    requires id in w.s.jobs && w.s.jobs[id].status.Running? && w.s.jobs[id].retryCount < w.s.jobs[id].maxRetries
    requires IsReadyList(items, Perform(cfg, w.s, id, request, now, true).0.jobs, at)
    ensures (exists i :: 0 <= i < |items| && items[i].id == id) <==>
            at >= now + (w.s.jobs[id].retryCount + 1) * SECOND
  {
    var job := w.s.jobs[id];
    AcceptedExactly(cfg, job, request, w.clock, now);
    AfterFailureReport(cfg, job, request, w.clock, now);
    var after := Decide(cfg, job, request, now).value;
    var e := Event(now, Ask(id, request), true);
    AskStores(cfg, w, id, request, after, now);
    ReadyExactly(cfg, Step(cfg, w, e), items, at, id);
  }

  /** A job that was just submitted is ready at every instant. */
  lemma SubmittedIsReady(cfg: Config, w: World, job: Job, now: Time, items: seq<Job>, at: Time)
    requires Healthy(cfg, w) && w.alive && Legal(w, Event(now, Submit(job), true)) && ValidJob(job)
    requires job.id !in w.s.jobs && IsReadyList(items, Enqueue(w.s, job, true).0.jobs, at)
    ensures exists i :: 0 <= i < |items| && items[i].id == job.id
  {
    var e := Event(now, Submit(job), true);
    StepKeepsHealthy(cfg, w, e);
    ReadyExactly(cfg, Step(cfg, w, e), items, at, job.id);
  }

  /** So is one that was just revived. */
  lemma RevivedIsReady(cfg: Config, w: World, id: string, now: Time, items: seq<Job>, at: Time)
    requires Healthy(cfg, w) && w.alive && w.clock <= now && now > ZERO_TIME
    requires id in w.s.jobs && w.s.jobs[id].status.Dead?
    requires IsReadyList(items, Perform(cfg, w.s, id, RetryDeadLetter, now, true).0.jobs, at)
    ensures exists i :: 0 <= i < |items| && items[i].id == id
  {
    var job := w.s.jobs[id];
    AcceptedExactly(cfg, job, RetryDeadLetter, w.clock, now);
    AfterRequest(cfg, job, RetryDeadLetter, w.clock, now);
    AskStores(cfg, w, id, RetryDeadLetter, Decide(cfg, job, RetryDeadLetter, now).value, now);
    ReadyExactly(cfg, Step(cfg, w, Event(now, Ask(id, RetryDeadLetter), true)), items, at, id);
  }

  // ---- Whole operations ----

  predicate Distinct(dead: seq<Job>) {
    forall i, j :: 0 <= i < j < |dead| ==> dead[i].id != dead[j].id
  }

  /** The list without its entry of the id. */
  predicate Cut(dead: seq<Job>, id: string, dead': seq<Job>) {
    forall i :: 0 <= i < |dead| && dead[i].id == id ==> dead' == dead[..i] + dead[i + 1..]
  }

  lemma {:induction false} RemoveFirstAt(dead: seq<Job>, id: string, i: nat)
    requires i < |dead| && dead[i].id == id && Distinct(dead)
    ensures RemoveFirst(dead, id) == dead[..i] + dead[i + 1..]
  {
    if i > 0 {
      var rest := dead[1..];
      RemoveFirstAt(rest, id, i - 1);
      assert dead[..i] + dead[i + 1..] == [dead[0]] + (rest[..i - 1] + rest[i..]);
    }
  }

  lemma RemoveFirstCut(dead: seq<Job>, id: string)
    requires Distinct(dead)
    ensures Cut(dead, id, RemoveFirst(dead, id))
  {
    forall i | 0 <= i < |dead| && dead[i].id == id ensures RemoveFirst(dead, id) == dead[..i] + dead[i + 1..] {
      RemoveFirstAt(dead, id, i);
    }
  }

  /** What an operation that moved a job leaves: its row and its copy in memory, and the alert of a death, or none
      after a revival; an alert that is already there under its id stays as it is. */
  predicate Moves(s: State, s': State, id: string, request: Request, after: Job) {
    var alert := AlertId(id);
    && s'.jobs == s.jobs[id := after] && s'.tables.rows == s.tables.rows[id := after]
    && if after.status.Dead? then
         && s'.dead == s.dead + [after] && alert in s'.tables.alerts
         && (if alert in s.tables.alerts then s'.tables.alerts == s.tables.alerts
             else s'.tables.alerts == s.tables.alerts[alert := s'.tables.alerts[alert]]
                  && Announces(s'.tables.alerts[alert], after))
       else if request.RetryDeadLetter? then
         s'.tables.alerts == s.tables.alerts - {alert} && Cut(s.dead, id, s'.dead)
       else s'.tables.alerts == s.tables.alerts && s'.dead == s.dead
  }

  /** An operation answers NotFound for an unknown id, Refused for a job that does not accept it, and PersistFailed when
      the database does not take the write or an all-space id is to be buried; then nothing changes.
      Otherwise it answers with the new record, and moves the job to it. */
  lemma PerformExactly(cfg: Config, w: World, id: string, request: Request, now: Time, up: bool)
    requires Healthy(cfg, w) && w.alive && w.clock <= now && now > ZERO_TIME
    ensures var (s, (s', r)) := (w.s, Perform(cfg, w.s, id, request, now, up));
            if id !in s.jobs then s' == s && r == Err(NotFound)
            else
              match Decide(cfg, s.jobs[id], request, now)
              case None => s' == s && r == Err(Refused)
              case Some(after) =>
                if !up || (IsBlank(id) && after.status.Dead?)
                then s' == s && r == Err(PersistFailed)
                else r == Ok(after) && after.id == id && Moves(s, s', id, request, after)
  {
    if id in w.s.jobs && Decide(cfg, w.s.jobs[id], request, now).Some? {
      var after := Decide(cfg, w.s.jobs[id], request, now).value;
      DecideKeepsShape(cfg, w.s.jobs[id], request, w.clock, now);
      SettleExactly(cfg, w.s, id, request, after, now, up);
    }
  }

  lemma SettleExactly(cfg: Config, s: State, id: string, request: Request, after: Job, clock: Time, up: bool)
    requires Shape(cfg, after, clock) && after.id == id && Distinct(s.dead)
    ensures var (s', r) := Settle(s, id, request, Some(after), up);
            if !up || (IsBlank(id) && after.status.Dead?)
            then s' == s && r == Err(PersistFailed)
            else r == Ok(after) && Moves(s, s', id, request, after)
  {
    DeadLetterAlertIsStorable(after);
    RemoveFirstCut(s.dead, id);
  }

  /** What submitting a job answers and leaves: a job needs an id, a kind, a known status and no negative numbers, and
      its id must be new; a blank status becomes Pending. */
  lemma EnqueueExactly(s: State, job: Job, up: bool)
    ensures var (s', error) := Enqueue(s, job, up);
            if job.id == "" || job.kind == "" || job.status.Unsupported? || job.retryCount < 0 || job.maxRetries < 0
               || job.timeout < 0
            then s' == s && error == Some(InvalidJob)
            else if job.id in s.jobs then s' == s && error == Some(AlreadyExists)
            else if !up then s' == s && error == Some(PersistFailed)
            else
              var stored := if job.status.Blank? then job.(status := Pending) else job;
              && error == None && s' == s.(jobs := s.jobs[job.id := stored],
                                           tables := s.tables.(rows := s.tables.rows[job.id := stored]))
  {
    var stored := if job.status.Blank? then job.(status := Pending) else job;
    if ValidJob(job) && job.id !in s.jobs && up {
      assert SaveRow(s.tables, stored, up) == Some(s.tables.(rows := s.tables.rows[job.id := stored]));
    }
  }
}
