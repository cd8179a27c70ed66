/** What each operation of a scheduler does to its own plans and to the shared table
    (packages/runtime-core/scheduler.go). */
module ScheduleSpec {
  import opened Base
  import opened ScheduleStores

  /** A scheduler's own copy of the plans it runs, and the table. */
  datatype SchedulerState = SchedulerState(plans: map<string, Plan>, due: map<string, Time>, rows: Table)

  datatype ScheduleError = Invalid | Exists | NotFound | NoDueTime | StoreFailed

  function FirstDue(c: Calendar, plan: Plan, now: Time): Option<Time> {
    match plan.kind
    case Cron => NextDue(c, plan.cronExpr, now, now)
    case Delay => Some(now + plan.delay)
    case OneShot => Some(plan.executeAt)
    case Unsupported(_) => None
  }

  /** An unclaimed row for a plan; it keeps the creation time of the row it replaces. */
  function PlanRow(t: Table, plan: Plan, due: Time, now: Time): Row {
    Row(plan, Some(due), PERSISTED, "", None, if plan.id in t then t[plan.id].createdAt else now, now)
  }

  function Register(c: Calendar, s: SchedulerState, plan: Plan, now: Time, up: bool)
    : (SchedulerState, Option<ScheduleError>) {
    if !ValidPlan(c, plan) then (s, Some(Invalid))
    else if plan.id in s.plans || plan.id in s.rows then (s, Some(Exists))
    else
      match FirstDue(c, plan, now)
      case None => (s, Some(NoDueTime))
      case Some(due) =>
        match SavePlanRow(c, s.rows, PlanRow(s.rows, plan, due, now), now, up)
        case None => (s, Some(StoreFailed))
        case Some(rows) => (SchedulerState(s.plans[plan.id := plan], s.due[plan.id := due], rows), None)
  }

  function Cancel(s: SchedulerState, id: string, up: bool): (SchedulerState, Option<ScheduleError>) {
    match DeleteRow(s.rows, id, up)
    case None => (s, Some(if id in s.rows then StoreFailed else NotFound))
    case Some(rows) => (SchedulerState(s.plans - {id}, s.due - {id}, rows), None)
  }

  // ---- Recovery ----

  /** A claim whose plan was due: after a restart nobody is going to finish it. */
  predicate Abandoned(row: Row, now: Time) {
    !IsBlank(row.claimOwner) && IsSet(row.claimedAt) && IsSet(row.dueAt) && row.dueAt.value <= now
  }

  function Released(row: Row, now: Time): Row {
    row.(claimOwner := "", claimedAt := None, evidence := RECOVERED_CLAIM, updatedAt := now)
  }

  /** The due time a row had, or the one its plan had when it was created. */
  function RestoredDue(c: Calendar, row: Row, now: Time): Option<Time> {
    if IsSet(row.dueAt) then row.dueAt else
    match row.plan.kind
    case Delay => if row.createdAt == ZERO_TIME then None else Some(row.createdAt + row.plan.delay)
    case OneShot => if row.plan.executeAt == ZERO_TIME then None else Some(row.plan.executeAt)
    case Cron =>
      var anchor := if row.createdAt == ZERO_TIME then now else row.createdAt;
      NextDue(c, row.plan.cronExpr, anchor, anchor)
    case Unsupported(_) => None
  }

  function RepairedDue(c: Calendar, row: Row, now: Time): Option<Time> {
    if IsSet(RestoredDue(c, row, now)) then RestoredDue(c, row, now) else FirstDue(c, row.plan, now)
  }

  function Repaired(row: Row, due: Time, now: Time): Row {
    var evidence := if IsBlank(row.evidence) then RECOVERED_STARTUP else TrimSpace(row.evidence);
    Row(row.plan, Some(due), evidence, "", None, row.createdAt, now)
  }

  /** The rewrite that recovery asks for on a valid row, if any. */
  function Rewrite(c: Calendar, row: Row, now: Time): Option<Row> {
    if Abandoned(row, now) then Some(Released(row, now))
    else if IsSet(RestoredDue(c, row, now)) && IsSet(row.dueAt) then None
    else match RepairedDue(c, row, now)
         case None => None
         case Some(due) => Some(Repaired(row, due, now))
  }

  datatype Snapshot = Snapshot(total: nat, recovered: nat, claims: nat, invalid: nat)

  /** What a recovery has gathered so far; `ok` is lost with the first failed write. */
  datatype Recovery = Recovery(plans: map<string, Plan>, due: map<string, Time>, snapshot: Snapshot, ok: bool)

  const NOTHING_RECOVERED := Recovery(map[], map[], Snapshot(0, 0, 0, 0), true)

  function Kept(r: Recovery, plan: Plan, due: Time): Recovery {
    r.(plans := r.plans[plan.id := plan], due := r.due[plan.id := due])
  }

  /** One listed row: counted, rewritten if need be, and kept with its due time. */
  function Visit(c: Calendar, r: Recovery, rows: Table, row: Row, now: Time, up: bool): (Recovery, Table) {
    var snapshot, rewrite := r.snapshot.(total := r.snapshot.total + 1), Rewrite(c, row, now);
    if !ValidPlan(c, row.plan)
        || RepairedDue(c, row, now).None? then (r.(snapshot := snapshot.(invalid := snapshot.invalid + 1)), rows)
    else if rewrite.None? then (Kept(r, row.plan, row.dueAt.value).(snapshot := snapshot), rows)
    else
      match SavePlanRow(c, rows, rewrite.value, now, up)
      case None => (r.(ok := false), rows)
      case Some(written) =>
        var claim := if Abandoned(row, now) then 1 else 0;
        (Kept(r, row.plan, rewrite.value.dueAt.value)
         .(snapshot := snapshot.(recovered := snapshot.recovered + 1, claims := snapshot.claims + claim)), written)
  }

  /** Recovers the listed rows in order; a failed write stops it. */
  function Sweep(c: Calendar, r: Recovery, rows: Table, listing: seq<Row>, now: Time, failing: set<string>)
    : (Recovery, Table)
    decreases |listing|
  {
    if listing == [] || !r.ok then (r, rows) else
    var (next, written) := Visit(c, r, rows, listing[0], now, listing[0].plan.id !in failing);
    Sweep(c, next, written, listing[1..], now, failing)
  }

  function Restore(c: Calendar, s: SchedulerState, listing: seq<Row>, now: Time, failing: set<string>)
    : (SchedulerState, Option<Snapshot>) {
    var (r, rows) := Sweep(c, NOTHING_RECOVERED, s.rows, listing, now, failing);
    if r.ok then (SchedulerState(r.plans, r.due, rows), Some(r.snapshot)) else (s.(rows := rows), None)
  }

  // ---- Running due plans ----

  /** A due plan as the tick copied it. */
  datatype Item = Item(plan: Plan, dueAt: Time)

  /** What the outside world does to one due plan: whether the claim and the final write reach the table, and
      whether the event is dispatched without error. */
  datatype Weather = Weather(claims: bool, delivers: bool, finishes: bool)

  predicate Emittable(plan: Plan) {
    !IsBlank(plan.id) && !IsBlank(plan.source) && !IsBlank(plan.eventType)
  }

  /** The plans in the order in which the map happens to yield them: each one, once. */
  ghost predicate Enumerates(order: seq<string>, plans: map<string, Plan>) {
    && (forall i :: 0 <= i < |order| ==> order[i] in plans)
    && (forall i, j :: 0 <= i < j < |order| ==> order[i] != order[j])
    && forall id :: id in plans ==> id in order
  }

  function DueItems(s: SchedulerState, order: seq<string>, now: Time): seq<Item>
    requires forall i :: 0 <= i < |order| ==> order[i] in s.plans
    decreases |order|
  {
    if order == [] then []
    else
      (if order[0] in s.due && s.due[order[0]] <= now then [Item(s.plans[order[0]], s.due[order[0]])] else [])
      + DueItems(s, order[1..], now)
  }

  function Dropped(s: SchedulerState, id: string, up: bool): SchedulerState {
    match DeleteRow(s.rows, id, up)
    case None => s
    case Some(rows) => SchedulerState(s.plans - {id}, s.due - {id}, rows)
  }

  /** After a dispatch: a cron plan moves on to its next occurrence, any other plan is over. */
  function Finish(c: Calendar, s: SchedulerState, id: string, dueAt: Time, tick: Time, now: Time, up: bool)
    : SchedulerState {
    if id !in s.plans then s
    else if !s.plans[id].kind.Cron? then Dropped(s, id, up)
    else
      match NextDue(c, s.plans[id].cronExpr, dueAt, tick)
      case None => Dropped(s, id, up)
      case Some(next) =>
        match SavePlanRow(c, s.rows, PlanRow(s.rows, s.plans[id], next, now), now, up)
        case None => s
        case Some(rows) => s.(due := s.due[id := next], rows := rows)
  }

  /** One due plan: claim its row, dispatch, finish. The flag says whether it was dispatched. */
  function RunItem(c: Calendar, s: SchedulerState, item: Item, now: Time, owner: string, w: Weather)
    : (SchedulerState, bool) {
    if !Emittable(item.plan) then (s, false) else
    match ClaimRow(s.rows, item.plan.id, item.dueAt, owner, now, w.claims)
    case None => (s, false)
    case Some(rows) =>
      (if w.delivers then Finish(c, s.(rows := rows), item.plan.id, item.dueAt, now, now, w.finishes)
       else s.(rows := rows), true)
  }

  /** The due plans in turn; `sent` collects the dispatched ones. */
  function RunItems(c: Calendar, s: SchedulerState, items: seq<Item>, sent: seq<Item>, now: Time, owner: string,
                    weather: string -> Weather)
    : (SchedulerState, seq<Item>)
    decreases |items|
  {
    if items == [] then (s, sent) else
    var (next, dispatched) := RunItem(c, s, items[0], now, owner, weather(items[0].plan.id));
    RunItems(c, next, items[1..], if dispatched then sent + [items[0]] else sent, now, owner, weather)
  }

  const DEFAULT_OWNER := "runtime-local:scheduler"
}
