/** One scheduler and its table over whole runs: claims, memory and recovery. */
module ScheduleLaws {
  import opened Base
  import opened ScheduleStores
  import opened ScheduleSpec

  ghost predicate IsListing(listing: seq<Row>, rows: Table) {
    && (forall i, j :: 0 <= i < j < |listing| ==> listing[i].plan.id != listing[j].plan.id)
    && (forall i :: 0 <= i < |listing| ==> listing[i].plan.id in rows && rows[listing[i].plan.id] == listing[i])
    && (forall id :: id in rows ==> Lists(listing, id))
  }

  predicate Lists(listing: seq<Row>, id: string) {
    exists i :: 0 <= i < |listing| && listing[i].plan.id == id
  }

  // ---- What a recovery does, row by row ----

  predicate Loads(c: Calendar, row: Row, now: Time) {
    ValidPlan(c, row.plan) && RepairedDue(c, row, now).Some?
  }

  function RecoveredRow(c: Calendar, row: Row, now: Time): Row {
    if Loads(c, row, now) && Rewrite(c, row, now).Some? then Normalized(Rewrite(c, row, now).value, now) else row
  }

  function RecoveredTable(c: Calendar, rows: Table, now: Time): Table {
    map id | id in rows :: RecoveredRow(c, rows[id], now)
  }

  function LoadedPlans(c: Calendar, rows: Table, now: Time): map<string, Plan> {
    map id | id in rows && Loads(c, rows[id], now) :: rows[id].plan
  }

  /** Every plan is loaded with the due time that its row now has. */
  predicate LoadedDue(c: Calendar, rows: Table, now: Time, due: map<string, Time>) {
    && due.Keys == LoadedPlans(c, rows, now).Keys
    && forall id :: id in due ==> RecoveredRow(c, rows[id], now).dueAt == Some(due[id])
  }

  /** One entry of a sweep, seen at any id. */
  ghost predicate VisitedAt(c: Calendar, r: Recovery, rows: Table, next: Recovery, written: Table, row: Row, now: Time,
                            id: string) {
    if id == row.plan.id && Loads(c, row, now)
    then id in written && written[id] == RecoveredRow(c, row, now) && id in next.plans && next.plans[id] == row.plan
         && id in next.due && Some(next.due[id]) == RecoveredRow(c, row, now).dueAt
    else SameAt(r, rows, next, written, id)
  }

  predicate SameAt(r: Recovery, rows: Table, next: Recovery, written: Table, id: string) {
    && (id in written <==> id in rows) && (id in rows ==> written[id] == rows[id])
    && (id in next.plans <==> id in r.plans) && (id in r.plans ==> next.plans[id] == r.plans[id])
    && (id in next.due <==> id in r.due) && (id in r.due ==> next.due[id] == r.due[id])
  }

  lemma VisitAt(c: Calendar, r: Recovery, rows: Table, row: Row, now: Time, up: bool, id: string)
    requires var next := Visit(c, r, rows, row, now, up).0; next.ok
    requires row.plan.id in rows && rows[row.plan.id] == row
    ensures var (next, written) := Visit(c, r, rows, row, now, up); VisitedAt(c, r, rows, next, written, row, now, id)
  {
  }

  lemma VisitElsewhere(c: Calendar, r: Recovery, rows: Table, row: Row, now: Time, up: bool)
    ensures var written := Visit(c, r, rows, row, now, up).1;
            forall id :: id != row.plan.id ==>
                (id in written <==> id in rows) && (id in rows ==> written[id] == rows[id])
  {
  }

  lemma {:induction false} SweepAt(c: Calendar, r: Recovery, rows: Table, listing: seq<Row>, now: Time,
                                   failing: set<string>, id: string)
    requires forall i, j :: 0 <= i < j < |listing| ==> listing[i].plan.id != listing[j].plan.id
    requires forall i :: 0 <= i < |listing| ==> listing[i].plan.id in rows && rows[listing[i].plan.id] == listing[i]
    requires Sweep(c, r, rows, listing, now, failing).0.ok
    ensures var (next, written) := Sweep(c, r, rows, listing, now, failing);
            if Lists(listing, id) then VisitedAt(c, r, rows, next, written, rows[id], now, id)
            else SameAt(r, rows, next, written, id)
    decreases |listing|
  {
    if listing != [] {
      var row, rest := listing[0], listing[1..];
      var (next, written) := Visit(c, r, rows, row, now, row.plan.id !in failing);
      VisitAt(c, r, rows, row, now, row.plan.id !in failing, id);
      VisitElsewhere(c, r, rows, row, now, row.plan.id !in failing);
      SweepAt(c, next, written, rest, now, failing, id);
      ListsTail(listing, id);
    }
  }

  lemma ListsTail(listing: seq<Row>, id: string)
    requires listing != []
    ensures Lists(listing, id) <==> listing[0].plan.id == id || Lists(listing[1..], id)
    ensures (forall i, j :: 0 <= i < j < |listing| ==> listing[i].plan.id != listing[j].plan.id) ==>
            !Lists(listing[1..], listing[0].plan.id)
  {
    assert forall i :: 0 <= i < |listing[1..]| ==> listing[1..][i] == listing[i + 1];
  }

  ghost predicate RestoredAt(c: Calendar, rows: Table, t: SchedulerState, now: Time, id: string) {
    && (id in t.rows <==> id in rows) && (id in rows ==> t.rows[id] == RecoveredRow(c, rows[id], now))
    && (id in t.plans <==> id in rows && Loads(c, rows[id], now)) && (id in t.plans ==> t.plans[id] == rows[id].plan)
    && (id in t.due <==> id in t.plans)
    && (id in t.due ==> id in rows && Some(t.due[id]) == RecoveredRow(c, rows[id], now).dueAt)
  }

  lemma RestoreAt(c: Calendar, s: SchedulerState, listing: seq<Row>, now: Time, failing: set<string>, id: string)
    requires IsListing(listing, s.rows) && Restore(c, s, listing, now, failing).1.Some?
    ensures RestoredAt(c, s.rows, Restore(c, s, listing, now, failing).0, now, id)
  {
    SweepAt(c, NOTHING_RECOVERED, s.rows, listing, now, failing, id);
    if Lists(listing, id) {
      var i :| 0 <= i < |listing| && listing[i].plan.id == id;
    }
  }

  /** A successful recovery loads exactly the valid plans and rewrites exactly the rows that need it, in whatever
      order the rows are listed. */
  lemma RestoreIs(c: Calendar, s: SchedulerState, listing: seq<Row>, now: Time, failing: set<string>)
    requires IsListing(listing, s.rows) && Restore(c, s, listing, now, failing).1.Some?
    ensures var t := Restore(c, s, listing, now, failing).0;
            t.rows == RecoveredTable(c, s.rows, now) && t.plans == LoadedPlans(c, s.rows, now)
              && LoadedDue(c, s.rows, now, t.due)
  {
    var t := Restore(c, s, listing, now, failing).0;
    forall id ensures (id in t.rows <==> id in s.rows)
        && (id in s.rows ==> t.rows[id] == RecoveredRow(c, s.rows[id], now)) {
      RestoreAt(c, s, listing, now, failing, id);
    }
    RestoredMemory(c, s, listing, now, failing);
  }

  lemma RestoredMemory(c: Calendar, s: SchedulerState, listing: seq<Row>, now: Time, failing: set<string>)
    requires IsListing(listing, s.rows) && Restore(c, s, listing, now, failing).1.Some?
    ensures var t := Restore(c, s, listing, now, failing).0;
            t.plans == LoadedPlans(c, s.rows, now) && LoadedDue(c, s.rows, now, t.due)
  {
    var t := Restore(c, s, listing, now, failing).0;
    forall id
      ensures (id in t.plans <==> id in s.rows && Loads(c, s.rows[id], now))
              && (id in t.plans ==> t.plans[id] == s.rows[id].plan)
      ensures (id in t.due <==> id in t.plans)
              && (id in t.due ==> id in s.rows && Some(t.due[id]) == RecoveredRow(c, s.rows[id], now).dueAt)
    {
      RestoreAt(c, s, listing, now, failing, id);
    }
    assert t.due.Keys == LoadedPlans(c, s.rows, now).Keys;
  }

  // ---- The invariant of one scheduler ----

  /** A claimed row was due when it was claimed. */
  predicate ClaimOk(row: Row, clock: Time) {
    !Unclaimed(row) ==>
      !IsBlank(row.claimOwner) && IsSet(row.claimedAt) && IsSet(row.dueAt)
        && row.dueAt.value <= row.claimedAt.value <= clock
  }

  predicate RowOk(id: string, row: Row, clock: Time) {
    row.plan.id == id && ClaimOk(row, clock)
  }

  /** What the scheduler remembers of a plan is what its row says. */
  predicate MemoryOk(c: Calendar, s: SchedulerState, id: string) {
    && (id in s.plans <==> id in s.due)
    && (id in s.plans ==>
          && id in s.rows && s.rows[id].plan == s.plans[id] && s.rows[id].dueAt == Some(s.due[id])
          && ValidPlan(c, s.plans[id]) && s.due[id] != ZERO_TIME)
  }

  predicate HealthyAt(c: Calendar, s: SchedulerState, clock: Time, id: string) {
    (id in s.rows ==> RowOk(id, s.rows[id], clock)) && MemoryOk(c, s, id)
  }

  ghost predicate Healthy(c: Calendar, s: SchedulerState, clock: Time) {
    forall id :: HealthyAt(c, s, clock, id)
  }

  /** Recovering a row a second time changes nothing, and no claim on a valid plan survives the first. */
  lemma RecoverRowOnce(c: Calendar, row: Row, clock: Time, now: Time)
    requires Lawful(c) && ClaimOk(row, clock) && clock <= now && now > 0
    ensures var once := RecoveredRow(c, row, now);
            && ClaimOk(once, clock) && once.plan == row.plan
            && (ValidPlan(c, row.plan) ==> Loads(c, row, now) && Unclaimed(once) && IsSet(once.dueAt))
            && (Loads(c, once, now) <==> Loads(c, row, now)) && (Loads(c, once, now) ==> Rewrite(c, once, now).None?)
            && RecoveredRow(c, once, now) == once
  {
    assert TrimSpace("") == "";
  }

  // ---- Runs of one scheduler ----

  /** A due plan as a tick copied it, on its way: claimed or not yet. */
  datatype Flight = Flight(item: Item, tick: Time, claimed: bool)

  /** The scheduler holds its lock for each of these alone: a tick copies the due plans, and then claims, dispatches and
      finishes them one by one, while registrations and cancellations come in between. */
  datatype Op =
    | Register(plan: Plan)
    | Cancel(id: string)
    | Look(order: seq<string>)
    | Claim(flight: nat, owner: string)
    | Finish(flight: nat)
    | Drop(flight: nat)
    | Recover(listing: seq<Row>, failing: set<string>, restarted: bool)

  datatype Event = Event(now: Time, op: Op, up: bool)

  datatype World = World(s: SchedulerState, clock: Time, flights: seq<Flight>)

  ghost predicate Legal(w: World, e: Event) {
    && w.clock <= e.now && e.now > 0
    && match e.op
       case Look(order) => forall i :: 0 <= i < |order| ==> order[i] in w.s.plans
       case Claim(flight, owner) => flight < |w.flights| && !w.flights[flight].claimed && !IsBlank(owner)
       case Finish(flight) => flight < |w.flights| && w.flights[flight].claimed
       case Drop(flight) => flight < |w.flights|
       case Recover(listing, _, _) => IsListing(listing, w.s.rows)
       case _ => true
  }

  /** What memory a recovery starts from. */
  function Before(s: SchedulerState, restarted: bool): SchedulerState {
    if restarted then SchedulerState(map[], map[], s.rows) else s
  }

  function Without(flights: seq<Flight>, i: nat): seq<Flight>
    requires i < |flights|
  {
    flights[..i] + flights[i + 1..]
  }

  function Flights(items: seq<Item>, tick: Time): seq<Flight> {
    seq(|items|, i requires 0 <= i < |items| => Flight(items[i], tick, false))
  }

  /** A claim that is won keeps its plan on the way to dispatch; any other ends it. */
  function Claimed(w: World, i: nat, owner: string, now: Time, up: bool): World
    requires i < |w.flights|
  {
    var f := w.flights[i];
    match (if Emittable(f.item.plan) then ClaimRow(w.s.rows, f.item.plan.id, f.item.dueAt, owner, now, up) else None)
    case None => World(w.s, now, Without(w.flights, i))
    case Some(rows) => World(w.s.(rows := rows), now, w.flights[i := f.(claimed := true)])
  }

  ghost function Step(c: Calendar, w: World, e: Event): World
    requires Legal(w, e)
  {
    match e.op
    case Register(plan) => World(ScheduleSpec.Register(c, w.s, plan, e.now, e.up).0, e.now, w.flights)
    case Cancel(id) => World(ScheduleSpec.Cancel(w.s, id, e.up).0, e.now, w.flights)
    case Look(order) => World(w.s, e.now, w.flights + Flights(DueItems(w.s, order, e.now), e.now))
    case Claim(i, owner) => Claimed(w, i, owner, e.now, e.up)
    case Finish(i) =>
      var f := w.flights[i];
      World(ScheduleSpec.Finish(c, w.s, f.item.plan.id, f.item.dueAt, f.tick, e.now, e.up), e.now,
            Without(w.flights, i))
    case Drop(i) => World(w.s, e.now, Without(w.flights, i))
    case Recover(listing, failing, restarted) =>
      World(Restore(c, Before(w.s, restarted), listing, e.now, failing).0, e.now, if restarted then [] else w.flights)
  }

  ghost predicate LegalRun(c: Calendar, w: World, es: seq<Event>)
    decreases |es|
  {
    es != [] ==> Legal(w, es[0]) && LegalRun(c, Step(c, w, es[0]), es[1..])
  }

  ghost function Run(c: Calendar, w: World, es: seq<Event>): World
    requires LegalRun(c, w, es)
    decreases |es|
  {
    if es == [] then w else Run(c, Step(c, w, es[0]), es[1..])
  }

  /** What is on its way was due when its tick looked. */
  predicate FlightOk(f: Flight, clock: Time) {
    f.item.dueAt <= f.tick <= clock && f.tick > 0
  }

  ghost predicate Sound(c: Calendar, w: World) {
    Healthy(c, w.s, w.clock) && forall i :: 0 <= i < |w.flights| ==> FlightOk(w.flights[i], w.clock)
  }

  lemma LaterHealthy(c: Calendar, s: SchedulerState, clock: Time, now: Time, id: string)
    requires HealthyAt(c, s, clock, id) && clock <= now
    ensures HealthyAt(c, s, now, id)
  {
  }

  lemma RegisterHealthy(c: Calendar, s: SchedulerState, plan: Plan, now: Time, up: bool, id: string)
    requires Lawful(c) && HealthyAt(c, s, now, id) && now > 0
    ensures HealthyAt(c, ScheduleSpec.Register(c, s, plan, now, up).0, now, id)
  {
    assert TrimSpace("") == "";
  }

  lemma CancelHealthy(c: Calendar, s: SchedulerState, target: string, now: Time, up: bool, id: string)
    requires HealthyAt(c, s, now, id)
    ensures HealthyAt(c, ScheduleSpec.Cancel(s, target, up).0, now, id)
  {
  }

  lemma FinishHealthy(c: Calendar, s: SchedulerState, target: string, dueAt: Time, tick: Time, now: Time, up: bool,
                      id: string)
    requires Lawful(c) && HealthyAt(c, s, now, target) && HealthyAt(c, s, now, id) && tick > 0 && now > 0
    ensures HealthyAt(c, ScheduleSpec.Finish(c, s, target, dueAt, tick, now, up), now, id)
  {
    assert TrimSpace("") == "";
  }

  lemma ClaimHealthy(c: Calendar, s: SchedulerState, item: Item, now: Time, owner: string, id: string)
    requires HealthyAt(c, s, now, id) && item.dueAt <= now && !IsBlank(owner)
    requires ClaimRow(s.rows, item.plan.id, item.dueAt, owner, now, true).Some?
    ensures HealthyAt(c, s.(rows := ClaimRow(s.rows, item.plan.id, item.dueAt, owner, now, true).value), now, id)
  {
    TrimSpaceFixes(owner);
    TrimSpaceFixes(TrimSpace(owner));
  }

  lemma {:induction false} DueItemsAreDue(s: SchedulerState, order: seq<string>, now: Time)
    requires forall i :: 0 <= i < |order| ==> order[i] in s.plans
    ensures forall i :: 0 <= i < |DueItems(s, order, now)| ==> DueItems(s, order, now)[i].dueAt <= now
    decreases |order|
  {
    if order != [] {
      DueItemsAreDue(s, order[1..], now);
    }
  }

  /** Wherever a recovery stopped, a row is as it was or as recovery makes it. */
  predicate PartlyRecovered(c: Calendar, rows: Table, written: Table, now: Time, id: string) {
    && (id in written <==> id in rows)
    && (id in rows ==> written[id] == rows[id] || written[id] == RecoveredRow(c, rows[id], now))
  }

  lemma {:induction false} SweepPartly(c: Calendar, r: Recovery, rows: Table, listing: seq<Row>, now: Time,
                                       failing: set<string>, id: string)
    requires forall i, j :: 0 <= i < j < |listing| ==> listing[i].plan.id != listing[j].plan.id
    requires forall i :: 0 <= i < |listing| ==> listing[i].plan.id in rows && rows[listing[i].plan.id] == listing[i]
    ensures PartlyRecovered(c, rows, Sweep(c, r, rows, listing, now, failing).1, now, id)
    ensures !Lists(listing, id) && id in rows ==> Sweep(c, r, rows, listing, now, failing).1[id] == rows[id]
    decreases |listing|
  {
    if listing != [] && r.ok {
      var row, rest := listing[0], listing[1..];
      var (next, written) := Visit(c, r, rows, row, now, row.plan.id !in failing);
      VisitElsewhere(c, r, rows, row, now, row.plan.id !in failing);
      assert row.plan.id in written
          && (written[row.plan.id] == row || written[row.plan.id] == RecoveredRow(c, row, now));
      assert forall i :: 0 <= i < |rest| ==> rest[i] == listing[i + 1];
      SweepPartly(c, next, written, rest, now, failing, id);
      assert Lists(rest, id) ==> Lists(listing, id) by {
        if Lists(rest, id) {
          var i :| 0 <= i < |rest| && rest[i].plan.id == id;
          assert listing[i + 1].plan.id == id;
        }
      }
    }
  }

  lemma RecoverHealthy(c: Calendar, s: SchedulerState, listing: seq<Row>, clock: Time, now: Time, failing: set<string>,
                       id: string)
    requires Lawful(c) && HealthyAt(c, s, clock, id) && clock <= now && now > 0 && IsListing(listing, s.rows)
    ensures HealthyAt(c, Restore(c, s, listing, now, failing).0, now, id)
  {
    SweepPartly(c, NOTHING_RECOVERED, s.rows, listing, now, failing, id);
    if id in s.rows {
      RecoverRowOnce(c, s.rows[id], clock, now);
      RecoveredDue(c, s.rows[id], now);
    }
    if Restore(c, s, listing, now, failing).1.Some? {
      RestoreAt(c, s, listing, now, failing, id);
    }
  }

  /** A due time that a row has is never changed by recovery. */
  lemma RecoveredDue(c: Calendar, row: Row, now: Time)
    ensures IsSet(row.dueAt) ==> RecoveredRow(c, row, now).dueAt == row.dueAt
  {
  }

  /** Each operation keeps the invariant at every id. */
  lemma StepHealthyAt(c: Calendar, w: World, e: Event, id: string)
    requires Lawful(c) && Legal(w, e) && Healthy(c, w.s, e.now)
    requires forall i :: 0 <= i < |w.flights| ==> FlightOk(w.flights[i], e.now)
    ensures HealthyAt(c, Step(c, w, e).s, e.now, id)
  {
    assert HealthyAt(c, w.s, e.now, id);
    match e.op
    case Register(plan) => RegisterHealthy(c, w.s, plan, e.now, e.up, id);
    case Cancel(target) => CancelHealthy(c, w.s, target, e.now, e.up, id);
    case Look(_) =>
    case Claim(i, owner) =>
      var item := w.flights[i].item;
      if e.up && ClaimRow(w.s.rows, item.plan.id, item.dueAt, owner, e.now, true).Some? {
        ClaimHealthy(c, w.s, item, e.now, owner, id);
      }
    case Finish(i) =>
      var f := w.flights[i];
      assert HealthyAt(c, w.s, e.now, f.item.plan.id);
      FinishHealthy(c, w.s, f.item.plan.id, f.item.dueAt, f.tick, e.now, e.up, id);
    case Drop(_) =>
    case Recover(listing, failing, restarted) =>
      RecoverHealthy(c, Before(w.s, restarted), listing, e.now, e.now, failing, id);
  }

  lemma StepFlights(c: Calendar, w: World, e: Event)
    requires Legal(w, e) && forall i :: 0 <= i < |w.flights| ==> FlightOk(w.flights[i], e.now)
    ensures forall i :: 0 <= i < |Step(c, w, e).flights| ==> FlightOk(Step(c, w, e).flights[i], e.now)
  {
    if e.op.Look? {
      DueItemsAreDue(w.s, e.op.order, e.now);
    }
  }

  lemma StepHealthy(c: Calendar, w: World, e: Event)
    requires Lawful(c) && Legal(w, e) && Sound(c, w)
    ensures Sound(c, Step(c, w, e)) && Step(c, w, e).clock == e.now
  {
    forall id ensures HealthyAt(c, w.s, e.now, id) {
      assert HealthyAt(c, w.s, w.clock, id);
      LaterHealthy(c, w.s, w.clock, e.now, id);
    }
    forall id ensures HealthyAt(c, Step(c, w, e).s, e.now, id) {
      StepHealthyAt(c, w, e, id);
    }
    StepFlights(c, w, e);
  }

  lemma {:induction false} RunHealthy(c: Calendar, w: World, es: seq<Event>)
    requires Lawful(c) && Sound(c, w) && LegalRun(c, w, es)
    ensures Sound(c, Run(c, w, es)) && Run(c, w, es).clock >= w.clock
    decreases |es|
  {
    if es != [] {
      StepHealthy(c, w, es[0]);
      RunHealthy(c, Step(c, w, es[0]), es[1..]);
    }
  }

  /** A table that no scheduler has touched yet: any plans, nothing claimed. */
  predicate Untouched(w: World) {
    && w.s.plans == map[] && w.s.due == map[] && w.clock == 0 && w.flights == []
    && forall id :: id in w.s.rows ==> w.s.rows[id].plan.id == id && Unclaimed(w.s.rows[id])
  }

  /** Claims were due when they were made, and memory is what the table says, after every run. */
  lemma ReachableScheduler(c: Calendar, w: World, es: seq<Event>, id: string)
    requires Lawful(c) && Untouched(w) && LegalRun(c, w, es)
    ensures var (s, clock) := (Run(c, w, es).s, Run(c, w, es).clock);
            && (id in s.rows && !Unclaimed(s.rows[id]) ==>
                  IsSet(s.rows[id].claimedAt) && IsSet(s.rows[id].dueAt)
                    && s.rows[id].dueAt.value <= s.rows[id].claimedAt.value <= clock)
            && (id in s.plans <==> id in s.due)
            && (id in s.plans ==> id in s.rows && s.rows[id].plan == s.plans[id] && s.rows[id].dueAt == Some(s.due[id]))
  {
    UntouchedHealthy(c, w);
    RunHealthy(c, w, es);
    assert HealthyAt(c, Run(c, w, es).s, Run(c, w, es).clock, id);
  }

  lemma UntouchedHealthy(c: Calendar, w: World)
    requires Untouched(w)
    ensures Sound(c, w)
  {
  }

  lemma RunOne(c: Calendar, w: World, e: Event)
    requires Legal(w, e)
    ensures LegalRun(c, w, [e]) && Run(c, w, [e]) == Step(c, w, e)
  {
    assert [e][1..] == [];
    assert Run(c, w, [e]) == Run(c, Step(c, w, e), []);
  }

  lemma RunTwo(c: Calendar, w: World, e: Event, f: Event)
    requires Legal(w, e) && Legal(Step(c, w, e), f)
    ensures LegalRun(c, w, [e, f]) && Run(c, w, [e, f]) == Step(c, Step(c, w, e), f)
  {
    RunOne(c, Step(c, w, e), f);
    assert [e, f][1..] == [f];
  }

  function ItemEvents(c: Calendar, w: World, i: nat, owner: string, now: Time, x: Weather): seq<Event>
    requires i < |w.flights|
  {
    var claim := Event(now, Claim(i, owner), x.claims);
    if !RunItem(c, w.s, w.flights[i].item, now, owner, x).1 then [claim]
    else [claim, if x.delivers then Event(now, Finish(i), x.finishes) else Event(now, Drop(i), true)]
  }

  /** Running one due plan is claiming and finishing it, alone. */
  lemma ItemIsEvents(c: Calendar, w: World, i: nat, owner: string, now: Time, x: Weather)
    requires i < |w.flights| && !w.flights[i].claimed && w.flights[i].tick == now && w.clock <= now && now > 0
    requires !IsBlank(owner)
    ensures var es := ItemEvents(c, w, i, owner, now, x);
            && LegalRun(c, w, es) && Run(c, w, es).flights == Without(w.flights, i)
            && Run(c, w, es).s == RunItem(c, w.s, w.flights[i].item, now, owner, x).0
  {
    var f, claim := w.flights[i], Event(now, Claim(i, owner), x.claims);
    var claimed := Step(c, w, claim);
    if RunItem(c, w.s, f.item, now, owner, x).1 {
      assert Without(w.flights[i := f.(claimed := true)], i) == Without(w.flights, i);
      RunTwo(c, w, claim, if x.delivers then Event(now, Finish(i), x.finishes) else Event(now, Drop(i), true));
    } else {
      RunOne(c, w, claim);
    }
  }

  // ---- The end of a dispatch acts on whatever plan has the id by then ----

  /** The finish of a dispatch keeps the plan that it finds under the id, dispatched or registered since, exactly when
      that is a cron plan or the write is refused; a cron plan is put at its first occurrence after the due time and the
      tick of the dispatch. No other plan changes. */
  lemma FinishKeepsExactly(c: Calendar, w: World, i: nat, now: Time, up: bool)
    requires Lawful(c) && Sound(c, w) && Legal(w, Event(now, Finish(i), up)) && w.flights[i].item.plan.id in w.s.plans
    ensures var (f, s, t) := (w.flights[i], w.s, Step(c, w, Event(now, Finish(i), up)).s);
            var id := f.item.plan.id; var kept := s.plans[id].kind.Cron? || !up;
            && (id in t.plans <==> kept) && (id in t.rows <==> kept) && (!up ==> t == s)
            && (kept && up ==>
                  && t.plans[id] == s.plans[id] && id in t.due && t.rows[id].dueAt == Some(t.due[id])
                  && Some(t.due[id]) == NextDue(c, s.plans[id].cronExpr, f.item.dueAt, f.tick))
            && forall k :: k != id ==>
                 && (k in t.plans <==> k in s.plans) && (k in s.plans ==> t.plans[k] == s.plans[k])
                 && (k in t.rows <==> k in s.rows) && (k in s.rows ==> t.rows[k] == s.rows[k])
  {
    assert HealthyAt(c, w.s, w.clock, w.flights[i].item.plan.id);
    assert TrimSpace("") == "";
  }

  /** A plan is cancelled while its dispatch is under way, and another one is registered under the same id. */
  function Replaced(id: string, successor: Plan, first: Time, second: Time): seq<Event> {
    [Event(first, Cancel(id), true), Event(second, Register(successor), true)]
  }

  /** From any sound world with a dispatch under way: the plan is cancelled, another one that is no cron plan and not
      yet due is registered under the same id, and the end of the old dispatch removes it before it was ever due. */
  lemma OldDispatchEndsNewPlan(c: Calendar, w: World, i: nat, successor: Plan, first: Time, second: Time, third: Time)
    requires Lawful(c) && Sound(c, w) && i < |w.flights| && w.flights[i].claimed
    requires successor.id == w.flights[i].item.plan.id && successor.id in w.s.plans
    requires ValidPlan(c, successor) && !successor.kind.Cron?
    requires w.clock <= first <= second <= third && first > 0
    requires FirstDue(c, successor, second).value > third
    ensures var (id, es) := (successor.id, Replaced(successor.id, successor, first, second));
            && LegalRun(c, w, es)
            && var mid := Run(c, w, es); var finish := Event(third, Finish(i), true);
            && id in mid.s.plans && mid.s.plans[id] == successor && id in mid.s.due && mid.s.due[id] > third
            && Legal(mid, finish) && id !in Step(c, mid, finish).s.plans && id !in Step(c, mid, finish).s.rows
  {
    var id := successor.id;
    var (e, f) := (Event(first, Cancel(id), true), Event(second, Register(successor), true));
    assert HealthyAt(c, w.s, w.clock, id);
    StepHealthy(c, w, e);
    var cancelled := Step(c, w, e);
    StepHealthy(c, cancelled, f);
    RegisteredRow(c, cancelled.s, successor, second, true);
    RunTwo(c, w, e, f);
    FinishKeepsExactly(c, Step(c, cancelled, f), i, third, true);
  }

  // ---- Due times at registration and repair ----

  /** An accepted registration is unclaimed, new, and due at the plan's own first instant; a refused one changes
      nothing. */
  lemma RegisteredRow(c: Calendar, s: SchedulerState, plan: Plan, now: Time, up: bool)
    requires Lawful(c) && now > 0
    ensures var (t, error) := ScheduleSpec.Register(c, s, plan, now, up);
            && (error.Some? ==> t == s)
            && (error.None? <==> up && ValidPlan(c, plan) && plan.id !in s.plans && plan.id !in s.rows)
            && (error.None? ==>
                  && t.plans == s.plans[plan.id := plan] && t.rows.Keys == s.rows.Keys + {plan.id}
                  && var row := t.rows[plan.id];
                  && t.due == s.due[plan.id := row.dueAt.value] && row.plan == plan && Unclaimed(row)
                  && row.createdAt == now
                  && match plan.kind
                     case Cron => Occurs(c, plan.cronExpr, row.dueAt.value) && row.dueAt.value > now
                                  && forall u :: Occurs(c, plan.cronExpr, u) && u > now ==> row.dueAt.value <= u
                     case Delay => row.dueAt.value == now + plan.delay
                     case OneShot => row.dueAt.value == plan.executeAt
                     case Unsupported(_) => false)
  {
    assert TrimSpace("") == "";
    if plan.kind.Cron? && c.parses(plan.cronExpr) {
      NextDueIsLeast(c, plan.cronExpr, now, now);
    }
  }

  /** A row that lost its due time gets the one that registering its plan at its creation would have given. */
  lemma RepairIsRegistration(c: Calendar, row: Row, now: Time)
    requires ValidPlan(c, row.plan) && !IsSet(row.dueAt) && row.createdAt != ZERO_TIME
    ensures RestoredDue(c, row, now) == FirstDue(c, row.plan, row.createdAt)
  {
  }

  // ---- Recovery releases every claim, and settles ----

  lemma {:induction false} QuietSweep(c: Calendar, r: Recovery, rows: Table, listing: seq<Row>, now: Time,
                                      failing: set<string>)
    requires r.ok && forall i :: 0 <= i < |listing| ==> Loads(c, listing[i], now) ==> Rewrite(c, listing[i], now).None?
    ensures var (next, written) := Sweep(c, r, rows, listing, now, failing);
            && next.ok && written == rows && next.snapshot.recovered == r.snapshot.recovered
            && next.snapshot.claims == r.snapshot.claims
            && next.snapshot.total == r.snapshot.total + |listing|
    decreases |listing|
  {
    if listing != [] {
      QuietSweep(c, Visit(c, r, rows, listing[0], now, listing[0].plan.id !in failing).0, rows, listing[1..], now,
                 failing);
    }
  }

  /** A recovered table is one that recovery leaves alone. */
  lemma SettledTable(c: Calendar, rows: Table, clock: Time, now: Time)
    requires Lawful(c) && clock <= now && now > 0 && forall id :: id in rows ==> ClaimOk(rows[id], clock)
    ensures var once := RecoveredTable(c, rows, now);
            && RecoveredTable(c, once, now) == once && LoadedPlans(c, once, now) == LoadedPlans(c, rows, now)
            && forall id :: id in once ==>
                 && (ValidPlan(c, once[id].plan) ==> Loads(c, once[id], now) && Unclaimed(once[id]))
                 && (Loads(c, once[id], now) ==> Loads(c, rows[id], now) && Rewrite(c, once[id], now).None?)
  {
    var once := RecoveredTable(c, rows, now);
    forall id | id in rows
      ensures RecoveredRow(c, once[id], now) == once[id] && once[id].plan == rows[id].plan
              && (Loads(c, once[id], now) <==> Loads(c, rows[id], now))
      ensures (ValidPlan(c, once[id].plan) ==> Loads(c, once[id], now) && Unclaimed(once[id]))
      ensures Loads(c, once[id], now) ==> Rewrite(c, once[id], now).None?
    {
      RecoverRowOnce(c, rows[id], clock, now);
    }
  }

  /** After a successful recovery of a reachable table no valid plan is claimed and all are loaded. */
  lemma RecoveryReleases(c: Calendar, w: World, es: seq<Event>, listing: seq<Row>, now: Time, failing: set<string>)
    requires Lawful(c) && Untouched(w) && LegalRun(c, w, es) && Run(c, w, es).clock <= now && now > 0
    requires IsListing(listing, Run(c, w, es).s.rows) && Restore(c, Run(c, w, es).s, listing, now, failing).1.Some?
    ensures var t := Restore(c, Run(c, w, es).s, listing, now, failing).0;
            && RecoveredTable(c, t.rows, now) == t.rows && t.plans == LoadedPlans(c, t.rows, now)
            && LoadedDue(c, t.rows, now, t.due)
            && forall id :: id in t.rows ==>
                 && (ValidPlan(c, t.rows[id].plan) ==>
                     Unclaimed(t.rows[id]) && id in t.plans && id in t.due && t.rows[id].dueAt == Some(t.due[id]))
                 && (Loads(c, t.rows[id], now) ==> Rewrite(c, t.rows[id], now).None?)
  {
    var s, clock := Run(c, w, es).s, Run(c, w, es).clock;
    UntouchedHealthy(c, w);
    RunHealthy(c, w, es);
    RestoreIs(c, s, listing, now, failing);
    forall id | id in s.rows ensures ClaimOk(s.rows[id], clock) {
      assert HealthyAt(c, s, clock, id);
    }
    SettledTable(c, s.rows, clock, now);
  }

  /** Recovering again at the same instant recovers nothing, cannot fail, and changes neither table nor memory. */
  lemma RecoverySettles(c: Calendar, w: World, es: seq<Event>, listing: seq<Row>, again: seq<Row>, now: Time,
                        failing: set<string>, failing': set<string>)
    requires Lawful(c) && Untouched(w) && LegalRun(c, w, es) && Run(c, w, es).clock <= now && now > 0
    requires IsListing(listing, Run(c, w, es).s.rows) && Restore(c, Run(c, w, es).s, listing, now, failing).1.Some?
    requires IsListing(again, Restore(c, Run(c, w, es).s, listing, now, failing).0.rows)
    ensures var t := Restore(c, Run(c, w, es).s, listing, now, failing).0;
            var (u, snapshot) := Restore(c, t, again, now, failing');
            u == t && snapshot.Some? && snapshot.value.recovered == 0 && snapshot.value.claims == 0
              && snapshot.value.total == |again|
  {
    var t := Restore(c, Run(c, w, es).s, listing, now, failing).0;
    RecoveryReleases(c, w, es, listing, now, failing);
    QuietSweep(c, NOTHING_RECOVERED, t.rows, again, now, failing');
    RestoreIs(c, t, again, now, failing');
    var u := Restore(c, t, again, now, failing').0;
    assert forall id :: id in u.due ==> u.due[id] == t.due[id];
    assert u.due == t.due;
  }
}
