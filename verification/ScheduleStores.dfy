/** Schedule plans, their due times, and the table that schedulers share
    (packages/runtime-core/scheduler.go, packages/runtime-core/postgres.go). */
module ScheduleStores {
  import opened Base

  datatype Kind = Cron | Delay | OneShot | Unsupported(text: string)

  datatype Plan = Plan(id: string, kind: Kind, cronExpr: string, delay: int, executeAt: Time, source: string,
                       eventType: string)

  /** The cron library: which expressions parse, and the next occurrence after an instant. */
  datatype Calendar = Calendar(parses: string -> bool, next: (string, Time) -> Time)

  /** Occurrences lie strictly ahead, and none is skipped. */
  ghost predicate Lawful(c: Calendar) {
    forall e, t :: c.parses(e) ==> c.next(e, t) > t && forall u ::
        t <= u < c.next(e, t) ==> c.next(e, u) == c.next(e, t)
  }

  predicate ValidPlan(c: Calendar, p: Plan) {
    && p.id != "" && p.source != "" && p.eventType != ""
    && match p.kind
       case Cron => p.cronExpr != "" && c.parses(p.cronExpr)
       case Delay => p.delay > 0
       case OneShot => p.executeAt != ZERO_TIME
       case Unsupported(_) => false
  }

  // ---- Cron due times ----

  function Max(a: Time, b: Time): Time {
    if a < b then b else a
  }

  function NextDue(c: Calendar, expr: string, after: Time, notBefore: Time): Option<Time> {
    if c.parses(expr) then Some(c.next(expr, Max(after, notBefore))) else None
  }

  /** Steps through the occurrences after `after` until one lies beyond `notBefore`. */
  method NextCronDue(c: Calendar, expr: string, after: Time, notBefore: Time) returns (due: Option<Time>)
    requires Lawful(c)
    ensures due == NextDue(c, expr, after, notBefore)
  {
    if !c.parses(expr) {
      return None;
    }
    var next := c.next(expr, after);
    while next <= notBefore
      invariant next > after
      invariant next > notBefore ==> next == c.next(expr, Max(after, notBefore))
      decreases notBefore - next
    {
      assert c.next(expr, next) > notBefore ==> c.next(expr, notBefore) == c.next(expr, next);
      next := c.next(expr, next);
    }
    due := Some(next);
  }

  predicate Occurs(c: Calendar, expr: string, t: Time) {
    c.next(expr, t - 1) == t
  }

  /** The due time found is the least occurrence after both instants. */
  lemma NextDueIsLeast(c: Calendar, expr: string, after: Time, notBefore: Time)
    requires Lawful(c) && c.parses(expr)
    ensures var due := NextDue(c, expr, after, notBefore).value;
            && Occurs(c, expr, due) && due > after && due > notBefore
            && forall t :: Occurs(c, expr, t) && t > after && t > notBefore ==> due <= t
  {
    var bound := Max(after, notBefore);
    var due := c.next(expr, bound);
    assert c.next(expr, due - 1) == due;
    forall t | Occurs(c, expr, t) && t > bound ensures due <= t {
      assert t < due ==> c.next(expr, t - 1) == due;
    }
  }

  // ---- The shared table ----

  const PERSISTED := "persisted-schedule-due-at"
  const RECOVERED_STARTUP := "recovered-schedule-due-at"
  const RECOVERED_CLAIM := "recovered-claimed-schedule-due-at"

  datatype Row = Row(
    plan: Plan,
    dueAt: Option<Time>,
    evidence: string,
    claimOwner: string,
    claimedAt: Option<Time>,
    createdAt: Time,
    updatedAt: Time)

  type Table = map<string, Row>

  function Normalized(row: Row, now: Time): Row {
    var created := if row.createdAt == ZERO_TIME then now else row.createdAt;
    row.(evidence := if !IsBlank(row.evidence) then TrimSpace(row.evidence) else if IsSet(row.dueAt) then PERSISTED
         else "",
         claimOwner := TrimSpace(row.claimOwner),
         createdAt := created,
         updatedAt := if row.updatedAt == ZERO_TIME then created else row.updatedAt)
  }

  function SavePlanRow(c: Calendar, t: Table, row: Row, now: Time, up: bool): Option<Table> {
    if up && ValidPlan(c, row.plan) then Some(t[row.plan.id := Normalized(row, now)]) else None
  }

  predicate Unclaimed(row: Row) {
    row.claimOwner == "" && row.claimedAt.None?
  }

  /** The compare-and-set: claims the row only while it is unclaimed and due at the expected instant. */
  function ClaimRow(t: Table, id: string, expected: Time, owner: string, at: Time, up: bool): Option<Table> {
    if !up || IsBlank(id) || IsBlank(owner) || expected == ZERO_TIME || at == ZERO_TIME then None
    else if id in t && t[id].dueAt == Some(expected) && Unclaimed(t[id])
    then Some(t[id := t[id].(claimOwner := TrimSpace(owner), claimedAt := Some(at), updatedAt := at)])
    else None
  }

  function DeleteRow(t: Table, id: string, up: bool): Option<Table> {
    if up && id in t then Some(t - {id}) else None
  }

  class ScheduleStore {
    var rows: Table

    constructor (rows: Table)
      ensures this.rows == rows
    {
      this.rows := rows;
    }

    method SaveSchedulePlan(c: Calendar, row: Row, now: Time, up: bool) returns (saved: bool)
      modifies this
      ensures saved == SavePlanRow(c, old(rows), row, now, up).Some?
      ensures rows == if saved then SavePlanRow(c, old(rows), row, now, up).value else old(rows)
    {
      saved := up && ValidPlan(c, row.plan);
      if saved {
        var created := if row.createdAt == ZERO_TIME then now else row.createdAt;
        var updated := if row.updatedAt == ZERO_TIME then created else row.updatedAt;
        var evidence := TrimSpace(row.evidence);
        if evidence == "" && IsSet(row.dueAt) {
          evidence := PERSISTED;
        }
        rows := rows[row.plan.id := Row(row.plan, row.dueAt, evidence, TrimSpace(row.claimOwner), row.claimedAt,
                                        created, updated)];
      }
    }

    method ClaimSchedulePlan(id: string, expected: Time, owner: string, at: Time, up: bool) returns (claimed: bool)
      modifies this
      ensures claimed == ClaimRow(old(rows), id, expected, owner, at, up).Some?
      ensures rows == if claimed then ClaimRow(old(rows), id, expected, owner, at, up).value else old(rows)
    {
      var name := TrimSpace(owner);
      if IsBlank(id) || name == "" || expected == ZERO_TIME || at == ZERO_TIME || !up {
        return false;
      }
      claimed := id in rows && rows[id].dueAt == Some(expected) && rows[id].claimOwner == ""
        && rows[id].claimedAt == None;
      if claimed {
        rows := rows[id := rows[id].(claimOwner := name, claimedAt := Some(at), updatedAt := at)];
      }
    }

    method DeleteSchedulePlan(id: string, up: bool) returns (deleted: bool)
      modifies this
      ensures deleted == DeleteRow(old(rows), id, up).Some?
      ensures rows == if deleted then DeleteRow(old(rows), id, up).value else old(rows)
    {
      deleted := up && id in rows;
      if deleted {
        rows := rows - {id};
      }
    }
  }
}
