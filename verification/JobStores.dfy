/** The job and alert tables, one atomic statement or transaction per operation
    (packages/runtime-core/postgres.go, packages/runtime-core/alerts.go). */
module JobStores {
  import opened Base
  import opened Jobs

  /** `occurredAt` stands for the first, latest and creation instants, which the queue sets alike. */
  datatype Alert = Alert(id: string, objectId: string, occurredAt: Time, reason: string)

  datatype Tables = Tables(rows: map<string, Job>, alerts: map<string, Alert>)

  function DeadLetterAlertId(jobId: string): string {
    "job.dead_letter:" + TrimSpace(jobId)
  }

  function DeadLetterAlert(job: Job): Alert {
    var occurredAt := if IsSet(job.finishedAt) then job.finishedAt.value else job.createdAt;
    Alert(DeadLetterAlertId(job.id), job.id, occurredAt, job.lastError)
  }

  function NormalizeAlert(alert: Alert): Option<Alert> {
    var n := alert.(id := TrimSpace(alert.id), objectId := TrimSpace(alert.objectId));
    if n.id == "" || n.objectId == "" || n.occurredAt == ZERO_TIME then None else Some(n)
  }

  /** Upsert of one row; `up` says whether the database accepts the statement. */
  function SaveRow(t: Tables, job: Job, up: bool): Option<Tables> {
    if up && ValidJob(job) then Some(t.(rows := t.rows[job.id := job])) else None
  }

  /** One transaction: upsert the dead job and insert its alert unless that id is already there. */
  function SaveDeadLetter(t: Tables, job: Job, alert: Alert, up: bool): Option<Tables> {
    match (SaveRow(t, job, up), NormalizeAlert(alert))
    case (Some(u), Some(n)) => Some(u.(alerts := if n.id in u.alerts then u.alerts else u.alerts[n.id := n]))
    case _ => None
  }

  /** One transaction: upsert the revived job and delete its alert. */
  function SaveDeadLetterRetry(t: Tables, job: Job, alertId: string, up: bool): Option<Tables> {
    match SaveRow(t, job, up)
    case Some(u) => if TrimSpace(alertId) == "" then None else Some(u.(alerts := u.alerts - {TrimSpace(alertId)}))
    case None => None
  }

  /** Rows of the table, no id twice. */
  ghost predicate Rows(listing: seq<Job>, rows: map<string, Job>) {
    && (forall i, j :: 0 <= i < j < |listing| ==> listing[i].id != listing[j].id)
    && (forall i :: 0 <= i < |listing| ==> listing[i].id in rows && rows[listing[i].id] == listing[i])
  }

  /** Every row exactly once, as the listing query returns them. */
  ghost predicate IsListing(listing: seq<Job>, rows: map<string, Job>) {
    Rows(listing, rows) && forall id :: id in rows ==> rows[id] in listing
  }

  class JobStore {
    var rows: map<string, Job>
    var alerts: map<string, Alert>

    constructor ()
      ensures State() == Tables(map[], map[])
    {
      rows, alerts := map[], map[];
    }

    function State(): Tables
      reads this
    {
      Tables(rows, alerts)
    }

    method SaveJob(job: Job, up: bool) returns (saved: bool)
      modifies this
      ensures saved == SaveRow(old(State()), job, up).Some?
      ensures State() == if saved then SaveRow(old(State()), job, up).value else old(State())
    {
      saved := up && ValidJob(job);
      if saved {
        rows := rows[job.id := job];
      }
    }

    method PersistJobDeadLetter(job: Job, alert: Alert, up: bool) returns (saved: bool)
      modifies this
      ensures saved == SaveDeadLetter(old(State()), job, alert, up).Some?
      ensures State() == if saved then SaveDeadLetter(old(State()), job, alert, up).value else old(State())
    {
      var before := rows;
      saved := SaveJob(job, up);
      if saved {
        var normalized := NormalizeAlert(alert);
        if normalized.None? {
          rows := before;
          return false;
        }
        if normalized.value.id !in alerts {
          alerts := alerts[normalized.value.id := normalized.value];
        }
      }
    }

    method PersistJobDeadLetterRetry(job: Job, alertId: string, up: bool) returns (saved: bool)
      modifies this
      ensures saved == SaveDeadLetterRetry(old(State()), job, alertId, up).Some?
      ensures State() == if saved then SaveDeadLetterRetry(old(State()), job, alertId, up).value else old(State())
    {
      var before := rows;
      saved := SaveJob(job, up);
      if saved {
        if TrimSpace(alertId) == "" {
          rows := before;
          return false;
        }
        alerts := alerts - {TrimSpace(alertId)};
      }
    }
  }

  /** Alert ids of two jobs clash exactly when the job ids agree after trimming. */
  lemma AlertIdsClash(a: string, b: string)
    ensures DeadLetterAlertId(a) == DeadLetterAlertId(b) <==> TrimSpace(a) == TrimSpace(b)
  {
    assert DeadLetterAlertId(a)[|"job.dead_letter:"|..] == TrimSpace(a);
    assert DeadLetterAlertId(b)[|"job.dead_letter:"|..] == TrimSpace(b);
  }

  /** A dead-letter alert is stored under its own id, unless the job id is blank or no instant is known. */
  lemma DeadLetterAlertIsStorable(job: Job)
    ensures TrimSpace(DeadLetterAlertId(job.id)) == DeadLetterAlertId(job.id)
    ensures NormalizeAlert(DeadLetterAlert(job)).Some? <==>
            TrimSpace(job.id) != "" && (IsSet(job.finishedAt) || job.createdAt != ZERO_TIME)
  {
    TrimSpaceFixes(job.id);
    var id := DeadLetterAlertId(job.id);
    var name := TrimSpace(job.id);
    assert id[0] == 'j' && id[|id| - 1] == if name == "" then ':' else name[|name| - 1];
    TrimSpaceFixes(id);
  }

  /** Which alerts are stored, and how: with an id, an object and a time, the names trimmed. */
  predicate Keeps(alert: Alert, kept: Alert) {
    kept == Alert(TrimSpace(alert.id), TrimSpace(alert.objectId), alert.occurredAt, alert.reason)
  }

  /** A death is written with its alert or not at all; an alert that has the id already stays as it is. */
  lemma DeathIsWritten(t: Tables, job: Job, alert: Alert, up: bool)
    ensures var (saved, id) := (SaveDeadLetter(t, job, alert, up), TrimSpace(alert.id));
            && (saved.Some? <==>
                  && up && ValidJob(job) && !IsBlank(alert.id) && !IsBlank(alert.objectId)
                  && alert.occurredAt != ZERO_TIME)
            && (saved.Some? ==>
                  && saved.value.rows == t.rows[job.id := job] && id in saved.value.alerts
                  && if id in t.alerts then saved.value.alerts == t.alerts
                     else saved.value.alerts == t.alerts[id := saved.value.alerts[id]]
                          && Keeps(alert, saved.value.alerts[id]))
  {
  }

  /** A revival is written, and the alert under the trimmed id removed, or neither is. */
  lemma RevivalIsWritten(t: Tables, job: Job, alertId: string, up: bool)
    ensures var saved := SaveDeadLetterRetry(t, job, alertId, up);
            && (saved.Some? <==> up && ValidJob(job) && !IsBlank(alertId))
            && (saved.Some? ==> saved.value == Tables(t.rows[job.id := job], t.alerts - {TrimSpace(alertId)}))
  {
  }
}
