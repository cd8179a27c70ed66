/** Whole histories of the job queue: operations, failed writes, crashes and restarts. */
module QueueRuns {
  import opened Base
  import opened Jobs
  import opened JobStores
  import opened QueueSpec

  datatype Op =
    | Submit(job: Job)
    | Ask(id: string, request: Request)
    | Boot(listing: seq<Job>, failing: set<string>)

  /** `up` tells whether the database accepts the event's write. */
  datatype Event = Event(now: Time, op: Op, up: bool)

  /** `alive` is false between a failed restart and the next attempt. */
  datatype World = World(alive: bool, s: State, clock: Time)

  const GENESIS := World(true, State(map[], [], Tables(map[], map[])), ZERO_TIME)

  /** A job as a caller that only wants it run submits it. */
  predicate Untouched(job: Job) {
    && (job.status.Pending? || job.status.Blank?) && job.retryCount <= job.maxRetries
    && job.lastError == "" && job.reasonCode.NoReason? && job.nextRunAt.None? && !job.deadLetter
    && job == ClearOwnership(job)
  }

  ghost predicate Legal(w: World, e: Event) {
    && e.now >= w.clock && e.now > ZERO_TIME
    && (e.op.Submit? ==> Untouched(e.op.job))
    && (e.op.Boot? ==> IsListing(e.op.listing, w.s.tables.rows))
  }

  /** A restart forgets memory and rebuilds it from the tables; a failed one leaves no queue behind. */
  function Step(cfg: Config, w: World, e: Event): World {
    match e.op
    case Submit(job) =>
      World(w.alive, if w.alive then Enqueue(w.s, job, e.up).0 else w.s, e.now)
    case Ask(id, request) =>
      World(w.alive, if w.alive then Perform(cfg, w.s, id, request, e.now, e.up).0 else w.s, e.now)
    case Boot(listing, failing) =>
      var (s, ok) := RestoreFrom(State(map[], [], w.s.tables), listing, e.now, failing);
      World(ok, s, e.now)
  }

  function Run(cfg: Config, w: World, es: seq<Event>): World
    decreases |es|
  {
    if es == [] then w else Run(cfg, Step(cfg, w, es[0]), es[1..])
  }

  ghost predicate LegalRun(cfg: Config, w: World, es: seq<Event>)
    decreases |es|
  {
    es != [] ==> Legal(w, es[0]) && LegalRun(cfg, Step(cfg, w, es[0]), es[1..])
  }

  // ---- What every reachable record looks like ----

  predicate Unleased(job: Job) {
    job == ClearOwnership(job)
  }

  predicate Leased(cfg: Config, job: Job, clock: Time) {
    && job.workerId == cfg.workerId
    && IsSet(job.startedAt) && job.leaseAcquiredAt == job.startedAt
    && job.heartbeatAt.Some? && job.startedAt.value <= job.heartbeatAt.value <= clock
    && job.leaseExpiresAt == Some(job.heartbeatAt.value + cfg.leaseTTL)
  }

  predicate Plain(job: Job) {
    job.lastError == "" && job.reasonCode.NoReason? && job.nextRunAt.None?
  }

  predicate Shape(cfg: Config, job: Job, clock: Time) {
    && ValidJob(job) && job.retryCount <= job.maxRetries
    && (job.deadLetter <==> job.status.Dead?)
    && (if job.status.Running? then Leased(cfg, job, clock) else Unleased(job))
    && match job.status
       case Pending => Plain(job)
       case Running => Plain(job)
       case Retrying => IsSet(job.nextRunAt)
       case Paused => IsSet(job.nextRunAt) || Plain(job)
       case Dead => job.retryCount == job.maxRetries && IsSet(job.finishedAt)
       case Done => true
       case Cancelled => true
       case _ => false
  }

  function DeadRows(rows: map<string, Job>): map<string, Job> {
    map id | id in rows && rows[id].status.Dead? :: rows[id]
  }

  ghost predicate RowsOk(cfg: Config, rows: map<string, Job>, clock: Time) {
    forall id :: id in rows ==> rows[id].id == id && Shape(cfg, rows[id], clock)
  }

  /** Memory mirrors the job table, and the dead list holds each dead job exactly once. */
  ghost predicate Healthy(cfg: Config, w: World) {
    && RowsOk(cfg, w.s.tables.rows, w.clock)
    && if w.alive then w.s.jobs == w.s.tables.rows && IsListing(w.s.dead, DeadRows(w.s.tables.rows))
       else w.s.jobs == map[] && w.s.dead == []
  }

  // ---- One record at a time ----

  lemma ClaimKeepsShape(cfg: Config, job: Job, clock: Time, now: Time)
    requires Shape(cfg, job, clock) && clock <= now && now > ZERO_TIME
    ensures match AfterClaim(cfg, job, now)
            case Some(after) => after.id == job.id && Shape(cfg, after, now) && after.status.Running?
                && !job.status.Dead?
            case None => true
  {
  }

  lemma FailureKeepsShape(cfg: Config, job: Job, reason: string, code: ReasonCode, clock: Time, now: Time)
    requires Shape(cfg, job, clock) && clock <= now && now > ZERO_TIME
    ensures match AfterFailure(job, reason, code, now)
            case Some(after) => after.id == job.id && Shape(cfg, after, now) && !job.status.Dead?
            case None => true
  {
  }

  lemma ReleaseKeepsShape(cfg: Config, job: Job, next: Status, clock: Time, now: Time)
    requires Shape(cfg, job, clock) && clock <= now && now > ZERO_TIME
    requires next in {Paused, Cancelled, Done}
    ensures match AfterRelease(job, next, now)
            case Some(after) => after.id == job.id && Shape(cfg, after, now) && after.status == next
                && !job.status.Dead?
            case None => true
  {
  }

  lemma ResumeKeepsShape(cfg: Config, job: Job, clock: Time, now: Time)
    requires Shape(cfg, job, clock) && clock <= now && now > ZERO_TIME && job.status.Paused?
    ensures match AfterResume(job, now)
            case Some(after) => after.id == job.id && Shape(cfg, after, now) && Waiting(after)
            case None => true
  {
  }

  lemma DecideKeepsShape(cfg: Config, job: Job, request: Request, clock: Time, now: Time)
    requires Shape(cfg, job, clock) && clock <= now && now > ZERO_TIME
    ensures match Decide(cfg, job, request, now)
            case Some(after) => after.id == job.id && Shape(cfg, after, now)
                && (job.status.Dead? <==> request.RetryDeadLetter?)
                && (request.RetryDeadLetter? ==> !after.status.Dead?)
            case None => true
  {
    match request
    case Heartbeat =>
    case MarkRunning => ClaimKeepsShape(cfg, job, clock, now);
    case Retry => ClaimKeepsShape(cfg, job, clock, now);
    case Complete => ReleaseKeepsShape(cfg, job, Done, clock, now);
    case Fail(reason) => FailureKeepsShape(cfg, job, reason, ExecutionReason(job), clock, now);
    case FailWith(reason, code) => FailureKeepsShape(cfg, job, reason, code, clock, now);
    case Timeout => FailureKeepsShape(cfg, job, "timeout", TimedOut, clock, now);
    case RetryDeadLetter =>
    case Pause => ReleaseKeepsShape(cfg, job, Paused, clock, now);
    case Resume =>
      if job.status.Paused? {
        ResumeKeepsShape(cfg, job, clock, now);
      }
    case Cancel => ReleaseKeepsShape(cfg, job, Cancelled, clock, now);
  }

  lemma RecoveredKeepsShape(cfg: Config, job: Job, clock: Time, now: Time)
    requires Shape(cfg, job, clock) && clock <= now && now > ZERO_TIME
    ensures var after := Recovered(job, now);
            after.id == job.id && Shape(cfg, after, now) && !after.status.Running?
            && (!job.status.Running? ==> after == job)
  {
  }

  lemma RowsAge(cfg: Config, rows: map<string, Job>, clock: Time, now: Time)
    requires RowsOk(cfg, rows, clock) && clock <= now
    ensures RowsOk(cfg, rows, now)
  {
  }

  // ---- The dead list ----

  lemma DeadListGrows(dead: seq<Job>, rows: map<string, Job>, after: Job)
    requires IsListing(dead, DeadRows(rows)) && after.id !in DeadRows(rows) && after.status.Dead?
    ensures IsListing(dead + [after], DeadRows(rows[after.id := after]))
  {
    assert DeadRows(rows[after.id := after]) == DeadRows(rows)[after.id := after];
  }

  lemma {:induction false} RemoveFirstCuts(dead: seq<Job>, rows: map<string, Job>, id: string)
    requires Rows(dead, rows)
    ensures Rows(RemoveFirst(dead, id), rows - {id})
    ensures forall job :: job in dead && job.id != id ==> job in RemoveFirst(dead, id)
    ensures forall job :: job in RemoveFirst(dead, id) ==> job in dead
  {
    if dead != [] {
      var head, tail := dead[0], dead[1..];
      if head.id == id {
        assert Rows(tail, rows - {id});
      } else {
        RemoveFirstCuts(tail, rows, id);
        var rest := RemoveFirst(tail, id);
        forall i | 0 <= i < |rest| ensures rest[i].id != head.id {
          assert rest[i] in tail;
        }
      }
    }
  }

  lemma DeadListShrinks(dead: seq<Job>, rows: map<string, Job>, after: Job)
    requires IsListing(dead, DeadRows(rows)) && !after.status.Dead?
    requires forall id :: id in rows ==> rows[id].id == id
    ensures IsListing(RemoveFirst(dead, after.id), DeadRows(rows[after.id := after]))
  {
    RemoveFirstCuts(dead, DeadRows(rows), after.id);
    assert DeadRows(rows[after.id := after]) == DeadRows(rows) - {after.id};
  }

  // ---- Restart ----

  predicate Mentions(listing: seq<Job>, id: string) {
    listing != [] && (listing[0].id == id || Mentions(listing[1..], id))
  }

  lemma {:induction false} MentionsAt(listing: seq<Job>, id: string)
    ensures Mentions(listing, id) <==> exists i :: 0 <= i < |listing| && listing[i].id == id
  {
    if listing != [] {
      MentionsAt(listing[1..], id);
      if Mentions(listing[1..], id) {
        var i :| 0 <= i < |listing[1..]| && listing[1..][i].id == id;
        assert listing[i + 1].id == id;
      }
      if i :| 0 < i < |listing| && listing[i].id == id {
        assert listing[1..][i - 1].id == id;
      }
    }
  }

  /** A sweep recovers each listed row or leaves it, and recovers them all when it finishes. */
  lemma {:induction false} SweepRecovers(t: Tables, listing: seq<Job>, at: Time, failing: set<string>, id: string)
    requires Rows(listing, t.rows) && id in t.rows
    ensures var swept := SweepRows(t, listing, at, failing);
            && id in swept.tables.rows
            && swept.tables.rows[id] in {t.rows[id], Recovered(t.rows[id], at)}
            && (!Mentions(listing, id) ==> swept.tables.rows[id] == t.rows[id])
            && (swept.done && Mentions(listing, id) ==> swept.tables.rows[id] == Recovered(t.rows[id], at))
    decreases |listing|
  {
    if listing != [] {
      var job, rest := listing[0], listing[1..];
      MentionsAt(rest, job.id);
      if !job.status.Running? {
        SweepRecovers(t, rest, at, failing, id);
      } else {
        var saved := PersistRecovered(t, Recovered(job, at), job.id !in failing);
        if saved.Some? {
          assert saved.value.rows == t.rows[job.id := Recovered(job, at)];
          SweepRecovers(saved.value, rest, at, failing, id);
        }
      }
    }
  }

  lemma {:induction false} SweepKeepsIds(t: Tables, listing: seq<Job>, at: Time, failing: set<string>)
    requires Rows(listing, t.rows)
    ensures SweepRows(t, listing, at, failing).tables.rows.Keys == t.rows.Keys
    decreases |listing|
  {
    if listing != [] {
      var job, rest := listing[0], listing[1..];
      if !job.status.Running? {
        SweepKeepsIds(t, rest, at, failing);
      } else {
        var saved := PersistRecovered(t, Recovered(job, at), job.id !in failing);
        if saved.Some? {
          assert saved.value.rows == t.rows[job.id := Recovered(job, at)];
          SweepKeepsIds(saved.value, rest, at, failing);
        }
      }
    }
  }

  lemma {:induction false} ByIdFinds(xs: seq<Job>, rows: map<string, Job>)
    requires Rows(xs, rows)
    ensures IsListing(xs, ById(xs))
    ensures forall id :: id in ById(xs) ==> id in rows && ById(xs)[id] == rows[id] && rows[id].id == id
  {
    if xs != [] {
      var init, last := xs[..|xs| - 1], xs[|xs| - 1];
      assert xs == init + [last];
      ByIdFinds(init, rows);
    }
  }

  lemma {:induction false} DeadInLists(xs: seq<Job>, rows: map<string, Job>)
    requires Rows(xs, rows)
    ensures IsListing(DeadIn(xs), DeadRows(ById(xs)))
  {
    if xs != [] {
      var init, last := xs[..|xs| - 1], xs[|xs| - 1];
      DeadInLists(init, rows);
      ByIdFinds(init, rows);
      assert forall job :: job in init ==> job.id != last.id;
      assert last.id !in ById(init);
      if last.status.Dead? {
        DeadListGrows(DeadIn(init), ById(init), last);
      } else {
        assert DeadRows(ById(xs)) == DeadRows(ById(init));
      }
    }
  }

  function RecoveredRows(rows: map<string, Job>, at: Time): map<string, Job> {
    map id | id in rows :: Recovered(rows[id], at)
  }

  lemma RecoveredListing(rows: map<string, Job>, listing: seq<Job>, at: Time)
    requires IsListing(listing, rows)
    ensures IsListing(RecoveredAll(listing, at), RecoveredRows(rows, at))
  {
    var recovered, rows' := RecoveredAll(listing, at), RecoveredRows(rows, at);
    forall i | 0 <= i < |recovered| ensures recovered[i].id in rows' && rows'[recovered[i].id] == recovered[i] {
      assert listing[i].id in rows;
    }
    forall id | id in rows' ensures rows'[id] in recovered {
      var i :| 0 <= i < |listing| && listing[i] == rows[id];
      assert recovered[i] == rows'[id];
    }
  }

  /** The memory that Restore builds holds every recovered row, and its dead list every dead one. */
  lemma RestoredMemory(rows: map<string, Job>, listing: seq<Job>, at: Time)
    requires IsListing(listing, rows) && forall id :: id in rows ==> rows[id].id == id
    ensures var recovered := RecoveredAll(listing, at);
            && ById(recovered) == RecoveredRows(rows, at)
            && IsListing(DeadIn(recovered), DeadRows(ById(recovered)))
  {
    var recovered, rows' := RecoveredAll(listing, at), RecoveredRows(rows, at);
    RecoveredListing(rows, listing, at);
    ByIdFinds(recovered, rows');
    DeadInLists(recovered, rows');
    ListingsAgree(recovered, ById(recovered), rows');
  }

  lemma ListingsAgree(xs: seq<Job>, a: map<string, Job>, b: map<string, Job>)
    requires IsListing(xs, a) && IsListing(xs, b)
    requires forall id :: id in a ==> a[id].id == id
    requires forall id :: id in b ==> b[id].id == id
    ensures a == b
  {
    forall id | id in a ensures id in b && a[id] == b[id] {
      var i :| 0 <= i < |xs| && xs[i] == a[id];
    }
    forall id | id in b ensures id in a {
      var i :| 0 <= i < |xs| && xs[i] == b[id];
    }
  }

  /** A restart, finished or not, leaves every row as it was or recovered; a finished one recovers them all. */
  lemma SweepKeepsRows(cfg: Config, t: Tables, listing: seq<Job>, clock: Time, now: Time, failing: set<string>)
    requires RowsOk(cfg, t.rows, clock) && clock <= now && now > ZERO_TIME && IsListing(listing, t.rows)
    ensures var swept := SweepRows(t, listing, now, failing);
            && swept.tables.rows.Keys == t.rows.Keys && RowsOk(cfg, swept.tables.rows, now)
            && (forall id :: id in t.rows ==> swept.tables.rows[id] in {t.rows[id], Recovered(t.rows[id], now)})
            && (swept.done ==> swept.tables.rows == RecoveredRows(t.rows, now))
  {
    RowsAge(cfg, t.rows, clock, now);
    SweepKeepsIds(t, listing, now, failing);
    var swept := SweepRows(t, listing, now, failing);
    forall id | id in t.rows
      ensures swept.tables.rows[id] in {t.rows[id], Recovered(t.rows[id], now)}
      ensures Shape(cfg, swept.tables.rows[id], now)
      ensures swept.done ==> swept.tables.rows[id] == Recovered(t.rows[id], now)
    {
      SweepRecovers(t, listing, now, failing, id);
      RecoveredKeepsShape(cfg, t.rows[id], clock, now);
      assert t.rows[id] in listing;
      MentionsAt(listing, id);
    }
  }

  /** After a finished restart memory equals the table, nothing is running and the dead list is right. */
  lemma RestartRebuilds(cfg: Config, w: World, listing: seq<Job>, now: Time, failing: set<string>)
    requires RowsOk(cfg, w.s.tables.rows, w.clock) && w.clock <= now && now > ZERO_TIME
    requires IsListing(listing, w.s.tables.rows)
    ensures var (s, ok) := RestoreFrom(State(map[], [], w.s.tables), listing, now, failing);
            && Healthy(cfg, World(ok, s, now))
            && s.tables.rows.Keys == w.s.tables.rows.Keys
            && (forall id :: id in s.tables.rows ==>
                s.tables.rows[id] in {w.s.tables.rows[id], Recovered(w.s.tables.rows[id], now)})
            && (ok ==> forall id :: id in s.jobs ==>
                !s.jobs[id].status.Running? && s.jobs[id] == Recovered(w.s.tables.rows[id], now))
  {
    SweepKeepsRows(cfg, w.s.tables, listing, w.clock, now, failing);
    RestoredMemory(w.s.tables.rows, listing, now);
    forall id | id in w.s.tables.rows ensures !Recovered(w.s.tables.rows[id], now).status.Running? {
      RecoveredKeepsShape(cfg, w.s.tables.rows[id], w.clock, now);
    }
  }

  // ---- The invariant ----

  lemma RowsUpdate(cfg: Config, rows: map<string, Job>, after: Job, clock: Time, now: Time)
    requires RowsOk(cfg, rows, clock) && clock <= now && Shape(cfg, after, now)
    ensures RowsOk(cfg, rows[after.id := after], now)
  {
    RowsAge(cfg, rows, clock, now);
  }

  lemma DeadListFollows(dead: seq<Job>, rows: map<string, Job>, request: Request, after: Job)
    requires IsListing(dead, DeadRows(rows)) && after.id in rows && forall id :: id in rows ==> rows[id].id == id
    requires (rows[after.id].status.Dead? <==> request.RetryDeadLetter?)
    requires (request.RetryDeadLetter? ==> !after.status.Dead?)
    ensures IsListing(DeadList(dead, after.id, request, after), DeadRows(rows[after.id := after]))
  {
    if after.status.Dead? {
      DeadListGrows(dead, rows, after);
    } else if request.RetryDeadLetter? {
      DeadListShrinks(dead, rows, after);
    } else {
      assert DeadRows(rows[after.id := after]) == DeadRows(rows);
    }
  }

  lemma PersistWritesRow(t: Tables, request: Request, after: Job, up: bool)
    ensures match Persist(t, request, after, up)
            case Some(u) => u.rows == t.rows[after.id := after]
            case None => true
  {
  }

  lemma AskKeepsHealthy(cfg: Config, w: World, id: string, request: Request, now: Time, up: bool)
    requires Healthy(cfg, w) && w.alive && w.clock <= now && now > ZERO_TIME
    ensures Healthy(cfg, World(true, Perform(cfg, w.s, id, request, now, up).0, now))
  {
    var rows := w.s.tables.rows;
    RowsAge(cfg, rows, w.clock, now);
    if id in rows {
      DecideKeepsShape(cfg, rows[id], request, w.clock, now);
      var decided := Decide(cfg, rows[id], request, now);
      if decided.Some? {
        PersistWritesRow(w.s.tables, request, decided.value, up);
        DeadListFollows(w.s.dead, rows, request, decided.value);
        RowsUpdate(cfg, rows, decided.value, w.clock, now);
      }
    }
  }

  lemma SubmitKeepsHealthy(cfg: Config, w: World, job: Job, now: Time, up: bool)
    requires Healthy(cfg, w) && w.alive && w.clock <= now && now > ZERO_TIME && Untouched(job)
    ensures Healthy(cfg, World(true, Enqueue(w.s, job, up).0, now))
  {
    var rows := w.s.tables.rows;
    RowsAge(cfg, rows, w.clock, now);
    var s' := Enqueue(w.s, job, up).0;
    if s' != w.s {
      var entry := if job.status.Blank? then job.(status := Pending) else job;
      assert Shape(cfg, entry, now);
      RowsUpdate(cfg, rows, entry, w.clock, now);
      assert DeadRows(s'.tables.rows) == DeadRows(rows);
    }
  }

  /** Every event, successful or not, keeps memory, the job table and the dead list in agreement. */
  lemma StepKeepsHealthy(cfg: Config, w: World, e: Event)
    requires Healthy(cfg, w) && Legal(w, e)
    ensures Healthy(cfg, Step(cfg, w, e))
  {
    RowsAge(cfg, w.s.tables.rows, w.clock, e.now);
    if e.op.Boot? {
      RestartRebuilds(cfg, w, e.op.listing, e.now, e.op.failing);
    } else if w.alive {
      if e.op.Submit? {
        SubmitKeepsHealthy(cfg, w, e.op.job, e.now, e.up);
      } else {
        AskKeepsHealthy(cfg, w, e.op.id, e.op.request, e.now, e.up);
      }
    }
  }

  lemma {:induction false} RunKeepsHealthy(cfg: Config, w: World, es: seq<Event>)
    requires Healthy(cfg, w) && LegalRun(cfg, w, es)
    ensures Healthy(cfg, Run(cfg, w, es))
    decreases |es|
  {
    if es != [] {
      StepKeepsHealthy(cfg, w, es[0]);
      RunKeepsHealthy(cfg, Step(cfg, w, es[0]), es[1..]);
    }
  }
}
