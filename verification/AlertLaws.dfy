/** When the alert table and the dead jobs agree. */
module AlertLaws {
  import opened Base
  import opened Jobs
  import opened JobStores
  import opened QueueSpec
  import opened QueueRuns

  /** Ids that differ stay different after trimming, unless they are all space. */
  ghost predicate NoClash(ids: set<string>) {
    forall a, b :: a in ids && b in ids && TrimSpace(a) == TrimSpace(b) && TrimSpace(a) != "" ==> a == b
  }

  /** The id of the alert of a job's death. */
  function AlertId(jobId: string): string {
    "job.dead_letter:" + TrimSpace(jobId)
  }

  /** The alert tells of this very death: named after the job, at the time and with the text of the failure. */
  predicate Announces(alert: Alert, job: Job) {
    && alert.id == AlertId(job.id) && alert.objectId == TrimSpace(job.id)
    && job.finishedAt == Some(alert.occurredAt) && alert.reason == job.lastError
  }

  predicate Announced(alerts: map<string, Alert>, job: Job) {
    AlertId(job.id) in alerts && Announces(alerts[AlertId(job.id)], job)
  }

  /** An id carries its alert while its job is dead, and no alert otherwise. */
  predicate Agrees(t: Tables, id: string) {
    if id in t.rows && t.rows[id].status.Dead? then TrimSpace(id) != "" && Announced(t.alerts, t.rows[id])
    else AlertId(id) !in t.alerts
  }

  /** The alert with id `a` is that of this dead job. */
  predicate Tells(t: Tables, a: string, id: string) {
    id in t.rows && t.rows[id].status.Dead? && AlertId(id) == a
  }

  /** Every stored alert is that of some dead job. */
  ghost predicate NoStray(t: Tables) {
    forall a :: a in t.alerts ==> exists id :: Tells(t, a, id)
  }

  /** Dead jobs and alerts correspond one to one. */
  ghost predicate AlertsAgree(t: Tables) {
    && (forall id :: id in t.rows ==> Agrees(t, id)) && NoStray(t)
    && (forall a, x, y :: Tells(t, a, x) && Tells(t, a, y) ==> x == y)
  }

  ghost predicate Covers(es: seq<Event>, ids: set<string>) {
    forall i :: 0 <= i < |es| && es[i].op.Submit? ==> es[i].op.job.id in ids
  }

  // ---- Agreement is kept ----

  ghost predicate Ready(t: Tables, ids: set<string>) {
    && t.rows.Keys <= ids && NoClash(ids)
    && (forall id :: id in ids ==> Agrees(t, id))
    && (forall id :: id in t.rows ==> t.rows[id].id == id)
    && NoStray(t)
  }

  lemma ReadyAgrees(t: Tables, ids: set<string>)
    requires Ready(t, ids)
    ensures AlertsAgree(t)
  {
    forall a, x, y | Tells(t, a, x) && Tells(t, a, y) ensures x == y {
      AlertIdsClash(x, y);
      assert Agrees(t, x) && x in ids && y in ids;
    }
  }

  lemma PlainWriteAgrees(t: Tables, after: Job, ids: set<string>)
    requires Ready(t, ids) && after.id in ids && !after.status.Dead?
    requires after.id in t.rows ==> !t.rows[after.id].status.Dead?
    ensures Ready(t.(rows := t.rows[after.id := after]), ids)
  {
    assert Agrees(t, after.id);
    PlainWriteStrays(t, after);
    forall id | id in ids && id != after.id ensures Agrees(t.(rows := t.rows[after.id := after]), id) {
      assert Agrees(t, id);
    }
  }

  lemma PlainWriteStrays(t: Tables, after: Job)
    requires NoStray(t) && (after.id in t.rows ==> !t.rows[after.id].status.Dead?)
    ensures NoStray(t.(rows := t.rows[after.id := after]))
  {
    var u := t.(rows := t.rows[after.id := after]);
    forall a | a in u.alerts ensures exists id :: Tells(u, a, id) {
      var id :| Tells(t, a, id);
      assert Tells(u, a, id);
    }
  }

  /** Changing one row together with its own alert does not disturb any other id. */
  lemma AlertWriteAgrees(t: Tables, u: Tables, after: Job, ids: set<string>)
    requires Ready(t, ids) && after.id in ids && TrimSpace(after.id) != ""
    requires u.rows == t.rows[after.id := after] && Agrees(u, after.id)
    requires forall a :: a != AlertId(after.id) ==> (a in u.alerts <==> a in t.alerts)
    requires forall a :: a != AlertId(after.id) && a in t.alerts ==> u.alerts[a] == t.alerts[a]
    ensures Ready(u, ids)
  {
    forall id | id in ids ensures Agrees(u, id) {
      AlertIdsClash(id, after.id);
      assert Agrees(t, id);
    }
    forall a | a in u.alerts ensures exists id :: Tells(u, a, id) {
      if a == AlertId(after.id) {
        assert Tells(u, a, after.id);
      } else {
        var id :| Tells(t, a, id);
        assert Tells(u, a, id);
      }
    }
  }

  lemma BurialAgrees(t: Tables, after: Job, up: bool, ids: set<string>)
    requires Ready(t, ids) && after.id in ids && after.status.Dead? && IsSet(after.finishedAt)
    requires after.id in t.rows ==> !t.rows[after.id].status.Dead?
    ensures match SaveDeadLetter(t, after, DeadLetterAlert(after), up)
            case Some(u) => Ready(u, ids)
            case None => true
  {
    DeadLetterAlertIsStorable(after);
    assert Agrees(t, after.id);
    var saved := SaveDeadLetter(t, after, DeadLetterAlert(after), up);
    if saved.Some? {
      AlertWriteAgrees(t, saved.value, after, ids);
    }
  }

  lemma RevivalAgrees(t: Tables, after: Job, up: bool, ids: set<string>)
    requires Ready(t, ids) && after.id in t.rows && t.rows[after.id].status.Dead? && !after.status.Dead?
    ensures match SaveDeadLetterRetry(t, after, DeadLetterAlertId(after.id), up)
            case Some(u) => Ready(u, ids)
            case None => true
  {
    DeadLetterAlertIsStorable(after);
    assert Agrees(t, after.id);
    var saved := SaveDeadLetterRetry(t, after, DeadLetterAlertId(after.id), up);
    if saved.Some? {
      AlertWriteAgrees(t, saved.value, after, ids);
    }
  }

  lemma RecoveryAgrees(cfg: Config, t: Tables, job: Job, clock: Time, now: Time, up: bool, ids: set<string>)
    requires Ready(t, ids) && job.id in t.rows && t.rows[job.id] == job && job.status.Running?
    requires Shape(cfg, job, clock) && clock <= now && now > ZERO_TIME
    ensures match PersistRecovered(t, Recovered(job, now), up)
            case Some(u) => Ready(u, ids) && u.rows == t.rows[job.id := Recovered(job, now)]
            case None => true
  {
    var after := Recovered(job, now);
    if after.status.Dead? {
      BurialAgrees(t, after, up, ids);
    } else {
      PlainWriteAgrees(t, after, ids);
    }
  }

  /** Recovering the first listed row leaves the others in the table. */
  lemma LaterRows(t: Tables, listing: seq<Job>, now: Time, up: bool)
    requires listing != [] && Rows(listing, t.rows) && PersistRecovered(t, Recovered(listing[0], now), up).Some?
    ensures Rows(listing[1..], PersistRecovered(t, Recovered(listing[0], now), up).value.rows)
  {
  }

  lemma {:induction false} SweepAgrees(cfg: Config, t: Tables, listing: seq<Job>, clock: Time, now: Time,
                                       failing: set<string>, ids: set<string>)
    requires Ready(t, ids) && Rows(listing, t.rows) && clock <= now && now > ZERO_TIME
    requires forall i :: 0 <= i < |listing| ==> Shape(cfg, listing[i], clock)
    ensures Ready(SweepRows(t, listing, now, failing).tables, ids)
    decreases |listing|
  {
    if listing != [] {
      var job, rest := listing[0], listing[1..];
      if !job.status.Running? {
        SweepAgrees(cfg, t, rest, clock, now, failing, ids);
      } else {
        RecoveryAgrees(cfg, t, job, clock, now, job.id !in failing, ids);
        var saved := PersistRecovered(t, Recovered(job, now), job.id !in failing);
        if saved.Some? {
          LaterRows(t, listing, now, job.id !in failing);
          SweepAgrees(cfg, saved.value, rest, clock, now, failing, ids);
        }
      }
    }
  }

  lemma AskAgrees(cfg: Config, w: World, e: Event, ids: set<string>)
    requires Healthy(cfg, w) && w.alive && Legal(w, e) && e.op.Ask? && Ready(w.s.tables, ids)
    ensures Ready(Step(cfg, w, e).s.tables, ids)
  {
    if e.op.id in w.s.jobs {
      var job := w.s.jobs[e.op.id];
      DecideKeepsShape(cfg, job, e.op.request, w.clock, e.now);
      var decided := Decide(cfg, job, e.op.request, e.now);
      if decided.Some? {
        var after := decided.value;
        if after.status.Dead? {
          BurialAgrees(w.s.tables, after, e.up, ids);
        } else if e.op.request.RetryDeadLetter? {
          RevivalAgrees(w.s.tables, after, e.up, ids);
        } else {
          PlainWriteAgrees(w.s.tables, after, ids);
        }
      }
    }
  }

  lemma StepAgrees(cfg: Config, w: World, e: Event, ids: set<string>)
    requires Healthy(cfg, w) && Legal(w, e) && Ready(w.s.tables, ids)
    requires e.op.Submit? ==> e.op.job.id in ids
    ensures Ready(Step(cfg, w, e).s.tables, ids)
  {
    match e.op
    case Submit(job) =>
      if Step(cfg, w, e).s != w.s {
        var entry := if job.status.Blank? then job.(status := Pending) else job;
        PlainWriteAgrees(w.s.tables, entry, ids);
      }
    case Ask(id, request) =>
      if w.alive {
        AskAgrees(cfg, w, e, ids);
      }
    case Boot(listing, failing) =>
      SweepAgrees(cfg, w.s.tables, listing, w.clock, e.now, failing, ids);
  }

  lemma {:induction false} RunAgrees(cfg: Config, w: World, es: seq<Event>, ids: set<string>)
    requires Healthy(cfg, w) && LegalRun(cfg, w, es) && Ready(w.s.tables, ids) && Covers(es, ids)
    ensures AlertsAgree(Run(cfg, w, es).s.tables)
    decreases |es|
  {
    if es == [] {
      ReadyAgrees(w.s.tables, ids);
    } else {
      StepAgrees(cfg, w, es[0], ids);
      StepKeepsHealthy(cfg, w, es[0]);
      RunAgrees(cfg, Step(cfg, w, es[0]), es[1..], ids);
    }
  }

  // ---- Agreement is lost when two ids clash ----

  function Doomed(id: string): Job {
    Job(id, "job", Pending, Payload("", ""), 0, 0, 0, "", NoReason, 1, None, None, None, "", None, None, None, false)
  }

  function Started(cfg: Config, id: string): Job {
    StampRunning(cfg, Doomed(id).(status := Running, startedAt := Some(1)), 1)
  }

  function Died(cfg: Config, id: string): Job {
    ApplyFailure(Started(cfg, id).(status := Dead, lastError := "timeout", finishedAt := Some(1), deadLetter := true),
                 TimedOut)
  }

  lemma DoomedSteps(cfg: Config, s: State, id: string)
    requires id != ""
    ensures id !in s.jobs ==>
              Enqueue(s, Doomed(id), true).0
              == State(s.jobs[id := Doomed(id)], s.dead, s.tables.(rows := s.tables.rows[id := Doomed(id)]))
    ensures id in s.jobs && s.jobs[id] == Doomed(id) ==>
              Perform(cfg, s, id, MarkRunning, 1, true).0
              == State(s.jobs[id := Started(cfg, id)], s.dead, s.tables.(rows := s.tables.rows[id := Started(cfg, id)]))
  {
  }

  lemma StartedDies(cfg: Config, s: State, id: string)
    requires TrimSpace(id) != "" && id != "" && id in s.jobs && s.jobs[id] == Started(cfg, id)
    ensures var s' := Perform(cfg, s, id, Timeout, 1, true).0;
            && s'.jobs == s.jobs[id := Died(cfg, id)] && s'.tables.rows == s.tables.rows[id := Died(cfg, id)]
            && s'.tables.alerts.Keys == s.tables.alerts.Keys + {DeadLetterAlertId(id)}
  {
    assert Decide(cfg, Started(cfg, id), Timeout, 1) == Some(Died(cfg, id));
    DeadLetterAlertIsStorable(Died(cfg, id));
  }

  lemma DiedRevives(cfg: Config, s: State, id: string)
    requires id != "" && id in s.jobs && s.jobs[id] == Died(cfg, id)
    ensures var s' := Perform(cfg, s, id, RetryDeadLetter, 1, true).0;
            && s'.tables.rows == s.tables.rows[id := Revive(Died(cfg, id))]
            && s'.tables.alerts.Keys == s.tables.alerts.Keys - {DeadLetterAlertId(id)}
  {
    DeadLetterAlertIsStorable(Revive(Died(cfg, id)));
  }

  function At1(op: Op): Event {
    Event(1, op, true)
  }

  lemma {:induction false} RunInTwo(cfg: Config, w: World, xs: seq<Event>, ys: seq<Event>)
    ensures Run(cfg, w, xs + ys) == Run(cfg, Run(cfg, w, xs), ys)
    ensures LegalRun(cfg, w, xs + ys) <==> LegalRun(cfg, w, xs) && LegalRun(cfg, Run(cfg, w, xs), ys)
    decreases |xs|
  {
    if xs == [] {
      assert xs + ys == ys;
    } else {
      assert (xs + ys)[1..] == xs[1..] + ys;
      RunInTwo(cfg, Step(cfg, w, xs[0]), xs[1..], ys);
    }
  }

  function StartBoth(a: string, b: string): seq<Event> {
    [At1(Submit(Doomed(a)))] + [At1(Submit(Doomed(b)))] + [At1(Ask(a, MarkRunning))] + [At1(Ask(b, MarkRunning))]
  }

  /** Two jobs die, and the dead-letter retry of the first deletes the alert they share. */
  function ClashRun(a: string, b: string): seq<Event> {
    StartBoth(a, b) + [At1(Ask(a, Timeout))] + [At1(Ask(b, Timeout))] + [At1(Ask(a, RetryDeadLetter))]
  }

  lemma OneEvent(cfg: Config, w: World, e: Event)
    ensures Run(cfg, w, [e]) == Step(cfg, w, e) && (LegalRun(cfg, w, [e]) <==> Legal(w, e))
  {
    assert [e][1..] == [];
  }

  /** Appends one event to a run. */
  lemma Extend(cfg: Config, es: seq<Event>, e: Event)
    requires LegalRun(cfg, GENESIS, es) && Legal(Run(cfg, GENESIS, es), e)
    ensures LegalRun(cfg, GENESIS, es + [e]) && Run(cfg, GENESIS, es + [e]) == Step(cfg, Run(cfg, GENESIS, es), e)
  {
    RunInTwo(cfg, GENESIS, es, [e]);
    OneEvent(cfg, Run(cfg, GENESIS, es), e);
  }

  lemma BothStart(cfg: Config, a: string, b: string)
    requires a != b && a != "" && b != ""
    ensures LegalRun(cfg, GENESIS, StartBoth(a, b))
    ensures var w := Run(cfg, GENESIS, StartBoth(a, b));
            w.alive && w.clock == 1 && w.s.jobs == map[a := Started(cfg, a), b := Started(cfg, b)]
  {
    var es := [At1(Submit(Doomed(a)))];
    OneEvent(cfg, GENESIS, es[0]);
    DoomedSteps(cfg, GENESIS.s, a);
    DoomedSteps(cfg, Run(cfg, GENESIS, es).s, b);
    Extend(cfg, es, At1(Submit(Doomed(b))));
    es := es + [At1(Submit(Doomed(b)))];
    DoomedSteps(cfg, Run(cfg, GENESIS, es).s, a);
    Extend(cfg, es, At1(Ask(a, MarkRunning)));
    es := es + [At1(Ask(a, MarkRunning))];
    DoomedSteps(cfg, Run(cfg, GENESIS, es).s, b);
    Extend(cfg, es, At1(Ask(b, MarkRunning)));
  }

  lemma ClashLosesAlert(cfg: Config, a: string, b: string)
    requires a != b && TrimSpace(a) == TrimSpace(b) != ""
    ensures LegalRun(cfg, GENESIS, ClashRun(a, b)) && !AlertsAgree(Run(cfg, GENESIS, ClashRun(a, b)).s.tables)
  {
    assert TrimSpace("") == "";
    AlertIdsClash(a, b);
    BothStart(cfg, a, b);
    var es := StartBoth(a, b);
    StartedDies(cfg, Run(cfg, GENESIS, es).s, a);
    Extend(cfg, es, At1(Ask(a, Timeout)));
    es := es + [At1(Ask(a, Timeout))];
    StartedDies(cfg, Run(cfg, GENESIS, es).s, b);
    Extend(cfg, es, At1(Ask(b, Timeout)));
    es := es + [At1(Ask(b, Timeout))];
    DiedRevives(cfg, Run(cfg, GENESIS, es).s, a);
    Extend(cfg, es, At1(Ask(a, RetryDeadLetter)));
    assert !Agrees(Run(cfg, GENESIS, ClashRun(a, b)).s.tables, b);
  }

  lemma ClashCovered(a: string, b: string, ids: set<string>)
    requires a in ids && b in ids
    ensures Covers(ClashRun(a, b), ids)
  {
  }

  /** Every history over jobs from `ids` ends with dead jobs and alerts in agreement. */
  ghost predicate AlwaysAgrees(cfg: Config, ids: set<string>) {
    forall es :: LegalRun(cfg, GENESIS, es) && Covers(es, ids) ==> AlertsAgree(Run(cfg, GENESIS, es).s.tables)
  }

  lemma NoClashAgrees(cfg: Config, ids: set<string>)
    requires NoClash(ids)
    ensures AlwaysAgrees(cfg, ids)
  {
    forall es | LegalRun(cfg, GENESIS, es) && Covers(es, ids) ensures AlertsAgree(Run(cfg, GENESIS, es).s.tables) {
      RunAgrees(cfg, GENESIS, es, ids);
    }
  }

  /** Over jobs drawn from `ids`, every history keeps dead jobs and alerts in one-to-one correspondence
      exactly when no two ids other than all-space ones are equal after trimming. */
  lemma AlertsAgreeExactly(cfg: Config, ids: set<string>)
    ensures NoClash(ids) <==> AlwaysAgrees(cfg, ids)
  {
    if NoClash(ids) {
      NoClashAgrees(cfg, ids);
    } else {
      var a, b :| a in ids && b in ids && TrimSpace(a) == TrimSpace(b) && TrimSpace(a) != "" && a != b;
      var es := ClashRun(a, b);
      ClashLosesAlert(cfg, a, b);
      ClashCovered(a, b, ids);
      assert LegalRun(cfg, GENESIS, es) && Covers(es, ids) && !AlertsAgree(Run(cfg, GENESIS, es).s.tables);
    }
  }
}
