/** One scheduler over the shared table: registration, cancellation, recovery and the due-plan tick
    (packages/runtime-core/scheduler.go). */
module Schedulers {
  import opened Base
  import opened ScheduleStores
  import opened ScheduleSpec

  class Scheduler {
    const calendar: Calendar
    const store: ScheduleStore
    const owner: string
    var plans: map<string, Plan>
    var due: map<string, Time>
    var lastRecovery: Snapshot

    constructor (calendar: Calendar, store: ScheduleStore, runtimeId: string)
      ensures this.calendar == calendar && this.store == store && !IsBlank(owner)
      ensures State() == SchedulerState(map[], map[], store.rows)
    {
      this.calendar, this.store := calendar, store;
      owner := if IsBlank(runtimeId) then DEFAULT_OWNER else runtimeId;
      plans, due, lastRecovery := map[], map[], Snapshot(0, 0, 0, 0);
      new;
      assert !IsSpace(DEFAULT_OWNER[0]);
    }

    function State(): SchedulerState
      reads this, store
    {
      SchedulerState(plans, due, store.rows)
    }

    /** Writes a plan back unclaimed, keeping the creation time of its row. */
    method ClearDuePlanClaim(plan: Plan, dueAt: Time, now: Time, up: bool) returns (saved: bool)
      modifies store
      ensures saved == SavePlanRow(calendar, old(store.rows), PlanRow(old(store.rows), plan, dueAt, now), now, up).Some?
      ensures store.rows == if saved then
              SavePlanRow(calendar, old(store.rows), PlanRow(old(store.rows), plan, dueAt, now), now, up).value
                            else old(store.rows)
    {
      var createdAt := now;
      if plan.id in store.rows {
        createdAt := store.rows[plan.id].createdAt;
      }
      saved := store.SaveSchedulePlan(calendar, Row(plan, Some(dueAt), PERSISTED, "", None, createdAt, now), now, up);
    }

    method DueAtForPlan(plan: Plan, now: Time) returns (dueAt: Option<Time>)
      requires Lawful(calendar)
      ensures dueAt == FirstDue(calendar, plan, now)
    {
      match plan.kind {
        case Cron => dueAt := NextCronDue(calendar, plan.cronExpr, now, now);
        case Delay => dueAt := Some(now + plan.delay);
        case OneShot => dueAt := Some(plan.executeAt);
        case Unsupported(_) => dueAt := None;
      }
    }

    method Register(plan: Plan, now: Time, up: bool) returns (error: Option<ScheduleError>)
      requires Lawful(calendar)
      modifies this`plans, this`due, store
      ensures (State(), error) == ScheduleSpec.Register(calendar, old(State()), plan, now, up)
    {
      if !ValidPlan(calendar, plan) {
        return Some(Invalid);
      }
      if plan.id in plans || plan.id in store.rows {
        return Some(Exists);
      }
      var dueAt := DueAtForPlan(plan, now);
      if dueAt.None? {
        return Some(NoDueTime);
      }
      var saved := ClearDuePlanClaim(plan, dueAt.value, now, up);
      if !saved {
        return Some(StoreFailed);
      }
      plans := plans[plan.id := plan];
      due := due[plan.id := dueAt.value];
      error := None;
    }

    method Cancel(id: string, up: bool) returns (error: Option<ScheduleError>)
      modifies this`plans, this`due, store
      ensures (State(), error) == ScheduleSpec.Cancel(old(State()), id, up)
    {
      if id !in store.rows {
        return Some(NotFound);
      }
      var deleted := store.DeleteSchedulePlan(id, up);
      if !deleted {
        return Some(StoreFailed);
      }
      plans := plans - {id};
      due := due - {id};
      error := None;
    }

    method Drop(id: string, up: bool)
      modifies this`plans, this`due, store
      ensures State() == Dropped(old(State()), id, up)
    {
      var deleted := store.DeleteSchedulePlan(id, up);
      if deleted {
        plans := plans - {id};
        due := due - {id};
      }
    }

    method FinishItem(id: string, dueAt: Time, tick: Time, now: Time, up: bool)
      requires Lawful(calendar)
      modifies this`plans, this`due, store
      ensures State() == Finish(calendar, old(State()), id, dueAt, tick, now, up)
    {
      if id !in plans {
        return;
      }
      if plans[id].kind.Cron? {
        var next := NextCronDue(calendar, plans[id].cronExpr, dueAt, tick);
        if next.Some? {
          var saved := ClearDuePlanClaim(plans[id], next.value, now, up);
          if saved {
            due := due[id := next.value];
          }
          return;
        }
      }
      Drop(id, up);
    }

    method CollectDue(order: seq<string>, now: Time) returns (items: seq<Item>)
      requires forall i :: 0 <= i < |order| ==> order[i] in plans
      ensures items == DueItems(State(), order, now)
    {
      items := [];
      for i := 0 to |order|
        invariant DueItems(State(), order, now) == items + DueItems(State(), order[i..], now)
      {
        assert order[i..][0] == order[i] && order[i..][1..] == order[i + 1..];
        if order[i] in due && due[order[i]] <= now {
          items := items + [Item(plans[order[i]], due[order[i]])];
        }
      }
    }

    method RunOne(item: Item, now: Time, w: Weather) returns (sent: bool)
      requires Lawful(calendar)
      modifies this`plans, this`due, store
      ensures (State(), sent) == RunItem(calendar, old(State()), item, now, owner, w)
    {
      if !Emittable(item.plan) {
        return false;
      }
      sent := store.ClaimSchedulePlan(item.plan.id, item.dueAt, owner, now, w.claims);
      if sent && w.delivers {
        FinishItem(item.plan.id, item.dueAt, now, now, w.finishes);
      }
    }

    /** Claims, dispatches and finishes the plans that are due, in the order the map yields them. */
    method RunDuePlans(order: seq<string>, now: Time, weather: string -> Weather) returns (sent: seq<Item>)
      requires Lawful(calendar) && Enumerates(order, plans)
      modifies this`plans, this`due, store
      ensures (State(), sent) == RunItems(calendar, old(State()), DueItems(old(State()), order, now), [], now, owner,
                                          weather)
    {
      var items := CollectDue(order, now);
      sent := [];
      for i := 0 to |items|
        invariant RunItems(calendar, State(), items[i..], sent, now, owner, weather)
               == RunItems(calendar, old(State()), items, [], now, owner, weather)
      {
        assert items[i..][0] == items[i] && items[i..][1..] == items[i + 1..];
        var done := RunOne(items[i], now, weather(items[i].plan.id));
        if done {
          sent := sent + [items[i]];
        }
      }
    }

    method RecoverAbandonedClaim(stored: Row, now: Time, up: bool) returns (saved: bool)
      modifies store
      ensures saved == SavePlanRow(calendar, old(store.rows), Released(stored, now), now, up).Some?
      ensures store.rows == if saved then SavePlanRow(calendar, old(store.rows), Released(stored, now), now, up).value
              else old(store.rows)
    {
      saved := store.SaveSchedulePlan(calendar,
                                      stored.(claimOwner := "", claimedAt := None, evidence := RECOVERED_CLAIM,
                                              updatedAt := now), now, up);
    }

    method PersistRestoredPlan(stored: Row, dueAt: Time, now: Time, up: bool) returns (saved: bool)
      modifies store
      ensures saved == SavePlanRow(calendar, old(store.rows), Repaired(stored, dueAt, now), now, up).Some?
      ensures store.rows == if saved then
              SavePlanRow(calendar, old(store.rows), Repaired(stored, dueAt, now), now, up).value else old(store.rows)
    {
      var evidence := TrimSpace(stored.evidence);
      if evidence == "" {
        evidence := RECOVERED_STARTUP;
      }
      saved := store.SaveSchedulePlan(calendar,
                                      Row(stored.plan, Some(dueAt), evidence, "", None, stored.createdAt, now), now,
                                        up);
    }

    method RestoredScheduleDueAt(stored: Row, now: Time) returns (dueAt: Option<Time>)
      requires Lawful(calendar)
      ensures dueAt == RestoredDue(calendar, stored, now)
    {
      if IsSet(stored.dueAt) {
        return stored.dueAt;
      }
      match stored.plan.kind {
        case Delay => dueAt := if stored.createdAt == ZERO_TIME then None
            else Some(stored.createdAt + stored.plan.delay);
        case OneShot => dueAt := if stored.plan.executeAt == ZERO_TIME then None else Some(stored.plan.executeAt);
        case Cron =>
          var anchor := if stored.createdAt == ZERO_TIME then now else stored.createdAt;
          dueAt := NextCronDue(calendar, stored.plan.cronExpr, anchor, anchor);
        case Unsupported(_) => dueAt := None;
      }
    }

    /** Keeps a valid row, after giving it a due time if it has none. */
    method RepairRow(r: Recovery, stored: Row, now: Time, up: bool) returns (next: Recovery)
      requires Lawful(calendar) && r.ok && ValidPlan(calendar, stored.plan) && !Abandoned(stored, now)
      modifies store
      ensures (next, store.rows) == Visit(calendar, r, old(store.rows), stored, now, up)
    {
      next := r.(snapshot := r.snapshot.(total := r.snapshot.total + 1));
      var missing := !IsSet(stored.dueAt);
      var dueAt := RestoredScheduleDueAt(stored, now);
      if !IsSet(dueAt) {
        dueAt := DueAtForPlan(stored.plan, now);
        missing := true;
        if dueAt.None? {
          assert false; // a valid plan has a first due time
        }
      }
      if missing {
        var saved := PersistRestoredPlan(stored, dueAt.value, now, up);
        if !saved {
          return r.(ok := false);
        }
        next := next.(snapshot := next.snapshot.(recovered := next.snapshot.recovered + 1));
      }
      next := Kept(next, stored.plan, dueAt.value);
    }

    /** Counts, repairs and keeps one listed row. */
    method RecoverRow(r: Recovery, stored: Row, now: Time, up: bool) returns (next: Recovery)
      requires Lawful(calendar) && r.ok
      modifies store
      ensures (next, store.rows) == Visit(calendar, r, old(store.rows), stored, now, up)
    {
      if !ValidPlan(calendar, stored.plan) {
        return r.(snapshot := r.snapshot.(total := r.snapshot.total + 1, invalid := r.snapshot.invalid + 1));
      }
      if !Abandoned(stored, now) {
        next := RepairRow(r, stored, now, up);
        return;
      }
      var saved := RecoverAbandonedClaim(stored, now, up);
      next := if !saved then r.(ok := false)
              else Kept(r, stored.plan, stored.dueAt.value)
                   .(snapshot := Snapshot(r.snapshot.total + 1, r.snapshot.recovered + 1, r.snapshot.claims + 1,
                                          r.snapshot.invalid));
    }

    /** Reads the plans back from the table, releasing abandoned claims and repairing missing due times. */
    method Restore(listing: seq<Row>, now: Time, failing: set<string>) returns (snapshot: Option<Snapshot>)
      requires Lawful(calendar)
      modifies this, store
      ensures (State(), snapshot) == ScheduleSpec.Restore(calendar, old(State()), listing, now, failing)
      ensures lastRecovery == if snapshot.Some? then snapshot.value else old(lastRecovery)
    {
      var r := NOTHING_RECOVERED;
      for i := 0 to |listing|
        invariant plans == old(plans) && due == old(due) && lastRecovery == old(lastRecovery) && r.ok
        invariant Sweep(calendar, NOTHING_RECOVERED, old(store.rows), listing, now, failing)
               == Sweep(calendar, r, store.rows, listing[i..], now, failing)
      {
        assert listing[i..][0] == listing[i] && listing[i..][1..] == listing[i + 1..];
        r := RecoverRow(r, listing[i], now, listing[i].plan.id !in failing);
        if !r.ok {
          return None;
        }
      }
      plans, due, lastRecovery := r.plans, r.due, r.snapshot;
      snapshot := Some(lastRecovery);
    }
  }
}
