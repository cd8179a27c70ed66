/** What a tick of a scheduler runs, and what its operations and its recovery leave, field by field. */
module ScheduleTicks {
  import opened Base
  import opened ScheduleStores
  import opened ScheduleSpec
  import opened ScheduleLaws

  // ---- What is collected ----

  /** The plan under this id is due. */
  predicate IsDue(s: SchedulerState, id: string, now: Time, item: Item) {
    id in s.plans && id in s.due && s.due[id] <= now && item == Item(s.plans[id], s.due[id])
  }

  /** A tick collects every listed plan that is due, with its due time, and nothing else. */
  lemma {:induction false} CollectsExactly(s: SchedulerState, order: seq<string>, now: Time, item: Item)
    requires forall i :: 0 <= i < |order| ==> order[i] in s.plans
    ensures item in DueItems(s, order, now) <==> exists i :: 0 <= i < |order| && IsDue(s, order[i], now, item)
    decreases |order|
  {
    if order != [] {
      CollectsExactly(s, order[1..], now, item);
      if i :| 0 <= i < |order| && IsDue(s, order[i], now, item) {
        assert i > 0 ==> order[1..][i - 1] == order[i];
      }
      if i :| 0 <= i < |order[1..]| && IsDue(s, order[1..][i], now, item) {
        assert order[i + 1] == order[1..][i];
      }
    }
  }

  /** Items of different plans. */
  predicate Apart(items: seq<Item>) {
    forall i, j :: 0 <= i < j < |items| ==> items[i].plan.id != items[j].plan.id
  }

  lemma {:induction false} CollectedApart(c: Calendar, s: SchedulerState, order: seq<string>, now: Time, clock: Time)
    requires Healthy(c, s, clock) && (forall i :: 0 <= i < |order| ==> order[i] in s.plans)
    requires forall i, j :: 0 <= i < j < |order| ==> order[i] != order[j]
    ensures Apart(DueItems(s, order, now))
    decreases |order|
  {
    if order != [] {
      var rest := DueItems(s, order[1..], now);
      CollectedApart(c, s, order[1..], now, clock);
      assert HealthyAt(c, s, clock, order[0]);
      forall i | 0 <= i < |rest| ensures rest[i].plan.id != order[0] {
        CollectsExactly(s, order[1..], now, rest[i]);
        var k :| 0 <= k < |order[1..]| && IsDue(s, order[1..][k], now, rest[i]);
        assert HealthyAt(c, s, clock, order[1..][k]);
      }
    }
  }

  // ---- What is dispatched ----

  /** The claim of a collected plan is won: it has an id, a source and an event type, the claim reaches the table, and
      the row is due at just that instant and claimed by nobody. */
  predicate Wins(rows: Table, item: Item, x: Weather) {
    && !IsBlank(item.plan.id) && !IsBlank(item.plan.source) && !IsBlank(item.plan.eventType) && x.claims
    && item.plan.id in rows && rows[item.plan.id].dueAt == Some(item.dueAt) && item.dueAt != ZERO_TIME
    && rows[item.plan.id].claimOwner == "" && rows[item.plan.id].claimedAt.None?
  }

  predicate SameElsewhere(s: SchedulerState, t: SchedulerState, target: string) {
    && t.rows - {target} == s.rows - {target} && t.plans - {target} == s.plans - {target}
    && t.due - {target} == s.due - {target}
  }

  lemma FinishElsewhere(c: Calendar, s: SchedulerState, id: string, dueAt: Time, tick: Time, now: Time, up: bool)
    requires id in s.plans ==> s.plans[id].id == id
    ensures SameElsewhere(s, ScheduleSpec.Finish(c, s, id, dueAt, tick, now, up), id)
  {
    var t := ScheduleSpec.Finish(c, s, id, dueAt, tick, now, up);
    assert t.rows - {id} == s.rows - {id};
    assert t.plans - {id} == s.plans - {id};
    assert t.due - {id} == s.due - {id};
  }

  lemma ItemSent(c: Calendar, s: SchedulerState, item: Item, now: Time, owner: string, x: Weather)
    requires now != ZERO_TIME && !IsBlank(owner)
    requires item.plan.id in s.plans ==> s.plans[item.plan.id].id == item.plan.id
    ensures var (t, sent) := RunItem(c, s, item, now, owner, x);
            && sent == Wins(s.rows, item, x) && (!sent ==> t == s) && SameElsewhere(s, t, item.plan.id)
  {
    if Wins(s.rows, item, x) {
      var claimed := s.(rows := ClaimRow(s.rows, item.plan.id, item.dueAt, owner, now, x.claims).value);
      FinishElsewhere(c, claimed, item.plan.id, item.dueAt, now, now, x.finishes);
    }
  }

  /** Every plan is stored under its own id. */
  predicate Named(s: SchedulerState) {
    forall id :: id in s.plans ==> s.plans[id].id == id
  }

  lemma ItemNamed(c: Calendar, s: SchedulerState, item: Item, now: Time, owner: string, x: Weather)
    requires Named(s) && now != ZERO_TIME && !IsBlank(owner)
    ensures Named(RunItem(c, s, item, now, owner, x).0)
  {
    ItemSent(c, s, item, now, owner, x);
  }

  /** The collected plans whose claims are won are dispatched, each once, and no other. */
  lemma {:induction false} ItemsSent(c: Calendar, s: SchedulerState, items: seq<Item>, sent: seq<Item>, now: Time,
                                     owner: string, weather: string -> Weather, item: Item)
    requires Named(s) && Apart(items) && now != ZERO_TIME && !IsBlank(owner)
    ensures var sent' := RunItems(c, s, items, sent, now, owner, weather).1;
            item in sent' <==> item in sent || (item in items && Wins(s.rows, item, weather(item.plan.id)))
    decreases |items|
  {
    if items != [] {
      var (first, rest) := (items[0], items[1..]);
      var (next, dispatched) := RunItem(c, s, first, now, owner, weather(first.plan.id));
      ItemSent(c, s, first, now, owner, weather(first.plan.id));
      ItemNamed(c, s, first, now, owner, weather(first.plan.id));
      ItemsSent(c, next, rest, if dispatched then sent + [first] else sent, now, owner, weather, item);
      assert item in items <==> item == first || item in rest;
    }
  }

  lemma {:induction false} ItemsSentApart(c: Calendar, s: SchedulerState, items: seq<Item>, sent: seq<Item>, now: Time,
                                          owner: string, weather: string -> Weather)
    requires Apart(sent + items)
    ensures Apart(RunItems(c, s, items, sent, now, owner, weather).1)
    decreases |items|
  {
    if items == [] {
      assert sent + items == sent;
    } else {
      var (next, dispatched) := RunItem(c, s, items[0], now, owner, weather(items[0].plan.id));
      var sent' := if dispatched then sent + [items[0]] else sent;
      assert dispatched ==> sent' + items[1..] == sent + items;
      if !dispatched {
        assert forall i :: 0 <= i < |sent| ==> (sent + items)[i] == sent[i];
        assert forall i :: 0 <= i < |items[1..]| ==> (sent + items)[|sent| + 1 + i] == items[1..][i];
      }
      ItemsSentApart(c, next, items[1..], sent', now, owner, weather);
    }
  }

  /** A tick dispatches each plan that is due and whose claim is won, once, and no other: whatever happens to one plan
      does not keep another one from running. */
  lemma TickSends(c: Calendar, s: SchedulerState, order: seq<string>, now: Time, owner: string,
                  weather: string -> Weather, item: Item)
    requires Healthy(c, s, now) && Enumerates(order, s.plans) && now > 0 && !IsBlank(owner)
    ensures var sent := RunItems(c, s, DueItems(s, order, now), [], now, owner, weather).1;
            && (item in sent <==> IsDue(s, item.plan.id, now, item) && Wins(s.rows, item, weather(item.plan.id)))
            && forall i, j :: 0 <= i < j < |sent| ==> sent[i].plan.id != sent[j].plan.id
  {
    var items := DueItems(s, order, now);
    forall id | id in s.plans ensures s.plans[id].id == id {
      assert HealthyAt(c, s, now, id);
    }
    CollectedApart(c, s, order, now, now);
    ItemsSent(c, s, items, [], now, owner, weather, item);
    assert [] + items == items;
    ItemsSentApart(c, s, items, [], now, owner, weather);
    CollectsExactly(s, order, now, item);
    if IsDue(s, item.plan.id, now, item) {
      var i :| 0 <= i < |order| && order[i] == item.plan.id;
    }
  }

  // ---- What a tick leaves ----

  /** An id that nothing happened to. */
  predicate KeptAt(s: SchedulerState, t: SchedulerState, id: string) {
    && (id in t.rows <==> id in s.rows) && (id in s.rows ==> t.rows[id] == s.rows[id])
    && (id in t.plans <==> id in s.plans) && (id in s.plans ==> t.plans[id] == s.plans[id])
    && (id in t.due <==> id in s.due) && (id in s.due ==> t.due[id] == s.due[id])
  }

  /** The first occurrence after both instants. */
  ghost predicate FirstAfter(c: Calendar, expr: string, a: Time, b: Time, due: Time) {
    && Occurs(c, expr, due) && due > a && due > b
    && forall u :: Occurs(c, expr, u) && u > a && u > b ==> due <= u
  }

  /** The row of a plan that waits for its next run. */
  predicate Waits(row: Row, plan: Plan, due: Time, created: Time, now: Time) {
    row == Row(plan, Some(due), "persisted-schedule-due-at", "", None, created, now)
  }

  /** What the end of a dispatch leaves: a plan that is gone by then, and a refused write, change nothing; a cron plan
      waits unclaimed for its first occurrence after its due time and the tick; any other plan is over. */
  ghost predicate FinishesTo(c: Calendar, s: SchedulerState, t: SchedulerState, id: string, dueAt: Time, tick: Time,
                             now: Time, up: bool) {
    if id !in s.plans || id !in s.rows || !up then t == s
    else if !s.plans[id].kind.Cron? then t == SchedulerState(s.plans - {id}, s.due - {id}, s.rows - {id})
    else
      && id in t.due && id in t.rows && FirstAfter(c, s.plans[id].cronExpr, dueAt, tick, t.due[id])
      && Waits(t.rows[id], s.plans[id], t.due[id],
               if s.rows[id].createdAt == ZERO_TIME then now else s.rows[id].createdAt, now)
      && t == SchedulerState(s.plans, s.due[id := t.due[id]], s.rows[id := t.rows[id]])
  }

  lemma PutBack(rows: Table, plan: Plan, due: Time, now: Time)
    requires now != ZERO_TIME
    ensures Waits(Normalized(PlanRow(rows, plan, due, now), now), plan, due,
                  if plan.id !in rows || rows[plan.id].createdAt == ZERO_TIME then now else rows[plan.id].createdAt,
                  now)
  {
    assert TrimSpace("") == "";
    TrimSpaceFixes(PERSISTED);
  }

  lemma FinishEnds(c: Calendar, s: SchedulerState, id: string, dueAt: Time, tick: Time, now: Time, up: bool,
                   clock: Time)
    requires Lawful(c) && HealthyAt(c, s, clock, id) && now != ZERO_TIME
    ensures FinishesTo(c, s, ScheduleSpec.Finish(c, s, id, dueAt, tick, now, up), id, dueAt, tick, now, up)
  {
    if id in s.plans && s.plans[id].kind.Cron? {
      NextDueIsLeast(c, s.plans[id].cronExpr, dueAt, tick);
      PutBack(s.rows, s.plans[id], NextDue(c, s.plans[id].cronExpr, dueAt, tick).value, now);
    }
  }

  /** What running a collected plan leaves of it. Without a won claim, nothing happened. A claim stays on the row when
      the dispatch or the final write fails; otherwise a cron plan waits unclaimed for its first occurrence after the
      old due time and the tick, and any other plan is gone. */
  ghost predicate RanTo(c: Calendar, s: SchedulerState, t: SchedulerState, item: Item, now: Time, owner: string,
                        x: Weather) {
    var id := item.plan.id;
    if !Wins(s.rows, item, x) then KeptAt(s, t, id)
    else if !x.delivers || !x.finishes || id !in s.plans then
      && KeptAt(s.(rows := t.rows), t, id) && id in t.rows
      && t.rows[id] == s.rows[id].(claimOwner := TrimSpace(owner), claimedAt := Some(now), updatedAt := now)
    else if !s.plans[id].kind.Cron? then id !in t.rows && id !in t.plans && id !in t.due
    else
      && id in t.rows && id in t.plans && id in t.due && t.plans[id] == s.plans[id]
      && FirstAfter(c, s.plans[id].cronExpr, item.dueAt, now, t.due[id])
      && Waits(t.rows[id], s.plans[id], t.due[id],
               if s.rows[id].createdAt == ZERO_TIME then now else s.rows[id].createdAt, now)
  }

  lemma ItemLeaves(c: Calendar, s: SchedulerState, item: Item, now: Time, owner: string, x: Weather)
    requires Lawful(c) && HealthyAt(c, s, now, item.plan.id) && now > 0 && !IsBlank(owner) && item.dueAt <= now
    ensures RanTo(c, s, RunItem(c, s, item, now, owner, x).0, item, now, owner, x)
  {
    if Wins(s.rows, item, x) {
      var claimed := s.(rows := ClaimRow(s.rows, item.plan.id, item.dueAt, owner, now, x.claims).value);
      ClaimHealthy(c, s, item, now, owner, item.plan.id);
      FinishEnds(c, claimed, item.plan.id, item.dueAt, now, now, x.finishes, now);
    }
  }

  lemma KeptElsewhere(s: SchedulerState, t: SchedulerState, target: string, id: string)
    requires SameElsewhere(s, t, target) && id != target
    ensures KeptAt(s, t, id)
  {
    assert (id in s.rows <==> id in s.rows - {target}) && (id in t.rows <==> id in t.rows - {target});
    assert (id in s.plans <==> id in s.plans - {target}) && (id in t.plans <==> id in t.plans - {target});
    assert (id in s.due <==> id in s.due - {target}) && (id in t.due <==> id in t.due - {target});
    assert id in s.rows ==> s.rows[id] == (s.rows - {target})[id] == t.rows[id];
    assert id in s.plans ==> s.plans[id] == (s.plans - {target})[id] == t.plans[id];
    assert id in s.due ==> s.due[id] == (s.due - {target})[id] == t.due[id];
  }

  lemma RanAlike(c: Calendar, s: SchedulerState, next: SchedulerState, t: SchedulerState, t': SchedulerState,
                 item: Item, now: Time, owner: string, x: Weather)
    requires KeptAt(s, next, item.plan.id) && KeptAt(t, t', item.plan.id) && RanTo(c, next, t, item, now, owner, x)
    ensures RanTo(c, s, t', item, now, owner, x)
  {
  }

  predicate Mentions(items: seq<Item>, id: string) {
    exists i :: 0 <= i < |items| && items[i].plan.id == id
  }

  lemma {:induction false} ItemsKeep(c: Calendar, s: SchedulerState, items: seq<Item>, sent: seq<Item>, now: Time,
                                     owner: string, weather: string -> Weather, id: string)
    requires Named(s) && now != ZERO_TIME && !IsBlank(owner) && !Mentions(items, id)
    ensures KeptAt(s, RunItems(c, s, items, sent, now, owner, weather).0, id)
    decreases |items|
  {
    if items != [] {
      var (first, rest) := (items[0], items[1..]);
      var (next, dispatched) := RunItem(c, s, first, now, owner, weather(first.plan.id));
      ItemSent(c, s, first, now, owner, weather(first.plan.id));
      ItemNamed(c, s, first, now, owner, weather(first.plan.id));
      KeptElsewhere(s, next, first.plan.id, id);
      assert forall i :: 0 <= i < |rest| ==> rest[i] == items[i + 1];
      ItemsKeep(c, next, rest, if dispatched then sent + [first] else sent, now, owner, weather, id);
    }
  }

  /** Each collected plan is left as running it alone would have left it. */
  lemma {:induction false} ItemsLeave(c: Calendar, s: SchedulerState, items: seq<Item>, sent: seq<Item>, now: Time,
                                      owner: string, weather: string -> Weather, k: nat)
    requires Lawful(c) && Named(s) && Apart(items) && k < |items| && HealthyAt(c, s, now, items[k].plan.id)
    requires now > 0 && !IsBlank(owner) && items[k].dueAt <= now
    ensures RanTo(c, s, RunItems(c, s, items, sent, now, owner, weather).0, items[k], now, owner,
                  weather(items[k].plan.id))
    decreases |items|
  {
    var (first, rest) := (items[0], items[1..]);
    var (next, dispatched) := RunItem(c, s, first, now, owner, weather(first.plan.id));
    var sent' := if dispatched then sent + [first] else sent;
    ItemSent(c, s, first, now, owner, weather(first.plan.id));
    ItemNamed(c, s, first, now, owner, weather(first.plan.id));
    assert forall i :: 0 <= i < |rest| ==> rest[i] == items[i + 1];
    var t := RunItems(c, next, rest, sent', now, owner, weather).0;
    var (item, x) := (items[k], weather(items[k].plan.id));
    if k == 0 {
      ItemLeaves(c, s, first, now, owner, x);
      ItemsKeep(c, next, rest, sent', now, owner, weather, first.plan.id);
      RanAlike(c, s, s, next, t, first, now, owner, x);
    } else {
      KeptElsewhere(s, next, first.plan.id, item.plan.id);
      ItemsLeave(c, next, rest, sent', now, owner, weather, k - 1);
      RanAlike(c, s, next, t, t, item, now, owner, x);
    }
  }

  /** A tick leaves a due plan as running it alone would have left it, and any other plan as it was. */
  lemma TickLeaves(c: Calendar, s: SchedulerState, order: seq<string>, now: Time, owner: string,
                   weather: string -> Weather, id: string)
    requires Lawful(c) && Healthy(c, s, now) && Enumerates(order, s.plans) && now > 0 && !IsBlank(owner)
    ensures var t := RunItems(c, s, DueItems(s, order, now), [], now, owner, weather).0;
            if id in s.plans && id in s.due && s.due[id] <= now
            then RanTo(c, s, t, Item(s.plans[id], s.due[id]), now, owner, weather(id)) && s.plans[id].id == id
            else KeptAt(s, t, id)
  {
    var items := DueItems(s, order, now);
    forall k | k in s.plans ensures s.plans[k].id == k {
      assert HealthyAt(c, s, now, k);
    }
    CollectedApart(c, s, order, now, now);
    if id in s.plans && id in s.due && s.due[id] <= now {
      var item := Item(s.plans[id], s.due[id]);
      var i :| 0 <= i < |order| && order[i] == id;
      CollectsExactly(s, order, now, item);
      assert IsDue(s, order[i], now, item);
      var k :| 0 <= k < |items| && items[k] == item;
      assert HealthyAt(c, s, now, id);
      ItemsLeave(c, s, items, [], now, owner, weather, k);
    } else {
      forall k | 0 <= k < |items| ensures items[k].plan.id != id {
        CollectsExactly(s, order, now, items[k]);
      }
      ItemsKeep(c, s, items, [], now, owner, weather, id);
    }
  }

  // ---- Registration and cancellation ----

  /** A plan that can be scheduled: it has an id, a source and an event type, and what its kind needs. */
  predicate Schedulable(c: Calendar, p: Plan) {
    && p.id != "" && p.source != "" && p.eventType != "" && !p.kind.Unsupported?
    && (p.kind.Cron? ==> p.cronExpr != "" && c.parses(p.cronExpr))
    && (p.kind.Delay? ==> p.delay > 0) && (p.kind.OneShot? ==> p.executeAt != ZERO_TIME)
  }

  /** The first due time of a plan that is registered at `now`. */
  ghost predicate DueFirst(c: Calendar, p: Plan, now: Time, due: Time) {
    match p.kind
    case Cron => FirstAfter(c, p.cronExpr, now, now, due)
    case Delay => due == now + p.delay
    case OneShot => due == p.executeAt
    case Unsupported(_) => false
  }

  /** What registering a plan answers and leaves: a plan that cannot be scheduled, whose id is known, or that the
      database refuses, changes nothing; any other one waits, in memory and in the table, for its first due time. */
  lemma RegisterExactly(c: Calendar, s: SchedulerState, plan: Plan, now: Time, up: bool)
    requires Lawful(c) && now > 0
    ensures var ((t, error), id) := (ScheduleSpec.Register(c, s, plan, now, up), plan.id);
            if !Schedulable(c, plan) then t == s && error == Some(Invalid)
            else if id in s.plans || id in s.rows then t == s && error == Some(Exists)
            else if !up then t == s && error == Some(StoreFailed)
            else
              && error == None && id in t.due && id in t.rows && DueFirst(c, plan, now, t.due[id])
              && Waits(t.rows[id], plan, t.due[id], now, now)
              && t == SchedulerState(s.plans[id := plan], s.due[id := t.due[id]], s.rows[id := t.rows[id]])
  {
    if plan.kind.Cron? && c.parses(plan.cronExpr) {
      NextDueIsLeast(c, plan.cronExpr, now, now);
    }
    if FirstDue(c, plan, now).Some? {
      PutBack(s.rows, plan, FirstDue(c, plan, now).value, now);
    }
  }

  /** What cancelling a plan answers and leaves. */
  lemma CancelExactly(s: SchedulerState, id: string, up: bool)
    ensures var (t, error) := ScheduleSpec.Cancel(s, id, up);
            if id !in s.rows then t == s && error == Some(NotFound)
            else if !up then t == s && error == Some(StoreFailed)
            else error == None && t == SchedulerState(s.plans - {id}, s.due - {id}, s.rows - {id})
  {
  }

  /** The compare-and-set claims the row for its trimmed owner if and only if id and owner are not blank, both instants
      are known, the row is due at just the expected instant and nobody holds it; nothing else changes. */
  lemma ClaimExactly(rows: Table, id: string, expected: Time, owner: string, at: Time, up: bool)
    ensures var claimed := ClaimRow(rows, id, expected, owner, at, up);
            && (claimed.Some? <==>
                  && up && !IsBlank(id) && !IsBlank(owner) && expected != ZERO_TIME && at != ZERO_TIME
                  && id in rows && rows[id].dueAt == Some(expected) && rows[id].claimOwner == ""
                  && rows[id].claimedAt.None?)
            && (claimed.Some? ==>
                  claimed.value == rows[id := rows[id].(claimOwner := TrimSpace(owner), claimedAt := Some(at),
                                                        updatedAt := at)])
  {
  }

  /** What the table makes of a row that it saves: names are trimmed, a due time is never without evidence, and no time
      stamp is missing; all else is as given, and saving the row again changes nothing. */
  lemma SavedExactly(c: Calendar, rows: Table, row: Row, now: Time, up: bool)
    requires now != ZERO_TIME
    ensures var saved := SavePlanRow(c, rows, row, now, up);
            && (saved.Some? <==> up && Schedulable(c, row.plan))
            && (saved.Some? ==>
                  && row.plan.id in saved.value && var kept := saved.value[row.plan.id];
                  && saved.value == rows[row.plan.id := kept]
                  && kept.plan == row.plan && kept.dueAt == row.dueAt && kept.claimedAt == row.claimedAt
                  && kept.claimOwner == TrimSpace(row.claimOwner)
                  && kept.evidence == (if !IsBlank(row.evidence) then TrimSpace(row.evidence)
                                       else if row.dueAt.Some? && row.dueAt.value != ZERO_TIME
                                       then "persisted-schedule-due-at" else "")
                  && kept.createdAt == (if row.createdAt == ZERO_TIME then now else row.createdAt)
                  && kept.updatedAt == (if row.updatedAt == ZERO_TIME then kept.createdAt else row.updatedAt)
                  && SavePlanRow(c, saved.value, kept, now, up) == saved)
  {
    TrimSpaceFixes(row.claimOwner);
    TrimSpaceFixes(TrimSpace(row.claimOwner));
    TrimSpaceFixes(row.evidence);
    TrimSpaceFixes(TrimSpace(row.evidence));
    TrimSpaceFixes(PERSISTED);
    assert TrimSpace("") == "";
    if up && ValidPlan(c, row.plan) {
      var kept := Normalized(row, now);
      assert Normalized(kept, now) == kept;
      assert rows[row.plan.id := kept][row.plan.id := kept] == rows[row.plan.id := kept];
    }
  }
}
