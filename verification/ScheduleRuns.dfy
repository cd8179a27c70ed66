/** Any number of schedulers over one table, interleaved statement by statement: how often an instant of a
    schedule can be dispatched. */
module ScheduleRuns {
  import opened Base
  import opened ScheduleStores
  import opened ScheduleSpec

  /** A claimed due plan on its way: dispatched or not yet. `tick` is the instant its scheduler looked at. */
  datatype Flight = Flight(node: string, id: string, dueAt: Time, tick: Time, dispatched: bool)

  datatype Node = Node(plans: map<string, Plan>, due: map<string, Time>)

  datatype World = World(rows: Table, nodes: map<string, Node>, flights: seq<Flight>)

  const GENESIS := World(map[], map[], [])

  datatype Event =
    | Registers(node: string, plan: Plan, now: Time, up: bool)     // the write of a registration whose checks passed
    | Cancels(node: string, id: string, up: bool)
    | Claims(node: string, id: string, dueAt: Time, tick: Time, owner: string, now: Time, up: bool)
    | Dispatches(flight: nat, delivered: bool)
    | Finishes(flight: nat, now: Time, up: bool)
    | Vanishes(flight: nat)                                        // its scheduler stopped
    | Rewrites(stored: Row, now: Time, up: bool)                   // a recovery rewrites a row that it listed earlier
    | Reloads(node: string, plans: map<string, Plan>, due: map<string, Time>)

  function NodeOf(w: World, node: string): Node {
    if node in w.nodes then w.nodes[node] else Node(map[], map[])
  }

  /** A scheduler's view: its own plans over the shared table. */
  function View(w: World, node: string): SchedulerState {
    SchedulerState(NodeOf(w, node).plans, NodeOf(w, node).due, w.rows)
  }

  function Published(w: World, node: string, s: SchedulerState): World {
    w.(rows := s.rows, nodes := w.nodes[node := Node(s.plans, s.due)])
  }

  /** Plans are kept under their own ids. */
  predicate Named(plans: map<string, Plan>) {
    forall id :: id in plans ==> plans[id].id == id
  }

  predicate Legal(c: Calendar, w: World, e: Event) {
    match e
    case Registers(node, plan, now, _) => ValidPlan(c, plan) && plan.id !in NodeOf(w, node).plans
        && FirstDue(c, plan, now).Some?
    case Cancels(_, _, _) => true
    case Claims(_, _, dueAt, tick, _, _, _) => dueAt <= tick
    case Dispatches(flight, _) => flight < |w.flights| && !w.flights[flight].dispatched
    case Finishes(flight, _, _) => flight < |w.flights| && w.flights[flight].dispatched
    case Vanishes(flight) => flight < |w.flights|
    case Rewrites(stored, now, _) => ValidPlan(c, stored.plan) && Rewrite(c, stored, now).Some?
    case Reloads(_, plans, _) => Named(plans)
  }

  function Without(flights: seq<Flight>, i: nat): seq<Flight>
    requires i < |flights|
  {
    flights[..i] + flights[i + 1..]
  }

  function Next(c: Calendar, w: World, e: Event): World
    requires Legal(c, w, e)
  {
    match e
    case Registers(node, plan, now, up) =>
      var due := FirstDue(c, plan, now).value;
      var view := View(w, node);
      (match SavePlanRow(c, w.rows, PlanRow(w.rows, plan, due, now), now, up)
       case None => w
       case Some(rows) => Published(w, node,
                                    SchedulerState(view.plans[plan.id := plan], view.due[plan.id := due], rows)))
    case Cancels(node, id, up) => Published(w, node, Cancel(View(w, node), id, up).0)
    case Claims(node, id, dueAt, tick, owner, now, up) =>
      (match ClaimRow(w.rows, id, dueAt, owner, now, up)
       case None => w
       case Some(rows) => w.(rows := rows, flights := w.flights + [Flight(node, id, dueAt, tick, false)]))
    case Dispatches(i, delivered) =>
      w.(flights := if delivered then w.flights[i := w.flights[i].(dispatched := true)] else Without(w.flights, i))
    case Finishes(i, now, up) =>
      var f := w.flights[i];
      Published(w, f.node, Finish(c, View(w, f.node), f.id, f.dueAt, f.tick, now, up)).(flights := Without(w.flights,
        i))
    case Vanishes(i) => w.(flights := Without(w.flights, i))
    case Rewrites(stored, now, up) =>
      (match SavePlanRow(c, w.rows, Rewrite(c, stored, now).value, now, up)
       case None => w
       case Some(rows) => w.(rows := rows))
    case Reloads(node, plans, due) => w.(nodes := w.nodes[node := Node(plans, due)])
  }

  predicate LegalRun(c: Calendar, w: World, es: seq<Event>)
    decreases |es|
  {
    es != [] ==> Legal(c, w, es[0]) && LegalRun(c, Next(c, w, es[0]), es[1..])
  }

  function Run(c: Calendar, w: World, es: seq<Event>): World
    requires LegalRun(c, w, es)
    decreases |es|
  {
    if es == [] then w else Run(c, Next(c, w, es[0]), es[1..])
  }

  // ---- Counting ----

  function One(b: bool): nat {
    if b then 1 else 0
  }

  /** Whether an event dispatches schedule `id` for instant `d`, with or without success. */
  function Sent(w: World, e: Event, id: string, d: Time): nat {
    One(e.Dispatches? && e.flight < |w.flights| && w.flights[e.flight].id == id && w.flights[e.flight].dueAt == d)
  }

  /** Whether an event registers `id` with a due time up to `d`. */
  function Enrolled(c: Calendar, e: Event, id: string, d: Time): nat {
    One(e.Registers? && e.up && e.plan.id == id
        && FirstDue(c, e.plan, e.now).Some? && FirstDue(c, e.plan, e.now).value <= d)
  }

  /** Whether an event is a recovery that rewrites the row of `id` with a due time up to `d`. */
  function Rewritten(c: Calendar, e: Event, id: string, d: Time): nat {
    One(e.Rewrites? && e.up && e.stored.plan.id == id
        && Rewrite(c, e.stored, e.now).Some? && IsSet(Rewrite(c, e.stored, e.now).value.dueAt)
        && Rewrite(c, e.stored, e.now).value.dueAt.value <= d)
  }

  function AllSent(c: Calendar, w: World, es: seq<Event>, id: string, d: Time): nat
    requires LegalRun(c, w, es)
    decreases |es|
  {
    if es == [] then 0 else Sent(w, es[0], id, d) + AllSent(c, Next(c, w, es[0]), es[1..], id, d)
  }

  function AllEnrolled(c: Calendar, es: seq<Event>, id: string, d: Time): nat {
    if es == [] then 0 else Enrolled(c, es[0], id, d) + AllEnrolled(c, es[1..], id, d)
  }

  function AllRewritten(c: Calendar, es: seq<Event>, id: string, d: Time): nat {
    if es == [] then 0 else Rewritten(c, es[0], id, d) + AllRewritten(c, es[1..], id, d)
  }

  // ---- The potential: what can still lead to a dispatch for `d` ----

  /** An unclaimed row that is due by `d`. */
  function RowToken(rows: Table, id: string, d: Time): nat {
    One(id in rows && Unclaimed(rows[id]) && IsSet(rows[id].dueAt) && rows[id].dueAt.value <= d)
  }

  /** A claim that will be dispatched for an instant up to `d`, or was for an earlier one and may move the row to
      `d`. */
  function FlightToken(f: Flight, id: string, d: Time): nat {
    One(f.id == id && if f.dispatched then f.dueAt < d else f.dueAt <= d)
  }

  function FlightTokens(flights: seq<Flight>, id: string, d: Time): nat {
    if flights == [] then 0 else FlightToken(flights[0], id, d) + FlightTokens(flights[1..], id, d)
  }

  function Tokens(w: World, id: string, d: Time): nat {
    RowToken(w.rows, id, d) + FlightTokens(w.flights, id, d)
  }

  lemma {:induction false} FlightTokensAdd(a: seq<Flight>, b: seq<Flight>, id: string, d: Time)
    ensures FlightTokens(a + b, id, d) == FlightTokens(a, id, d) + FlightTokens(b, id, d)
  {
    if a == [] {
      assert a + b == b;
    } else {
      assert (a + b)[0] == a[0] && (a + b)[1..] == a[1..] + b;
      FlightTokensAdd(a[1..], b, id, d);
    }
  }

  lemma FlightTokensAt(flights: seq<Flight>, i: nat, g: Flight, id: string, d: Time)
    requires i < |flights|
    ensures FlightTokens(flights, id, d) == FlightTokens(Without(flights, i), id, d) + FlightToken(flights[i], id, d)
    ensures FlightTokens(flights[i := g], id, d) == FlightTokens(Without(flights, i), id, d) + FlightToken(g, id, d)
  {
    var (a, b) := (flights[..i], flights[i + 1..]);
    assert flights == a + ([flights[i]] + b) && flights[i := g] == a + ([g] + b);
    FlightTokensAdd(a, [flights[i]] + b, id, d);
    FlightTokensAdd(a, [g] + b, id, d);
    FlightTokensAdd([flights[i]], b, id, d);
    FlightTokensAdd([g], b, id, d);
    FlightTokensAdd(a, b, id, d);
  }

  /** A finished plan leaves its row gone, untouched, or due strictly later than before. */
  lemma FinishMovesOn(c: Calendar, s: SchedulerState, id: string, dueAt: Time, tick: Time, now: Time, up: bool)
    requires Lawful(c) && dueAt <= tick && Named(s.plans)
    ensures var rows := Finish(c, s, id, dueAt, tick, now, up).rows;
            && (forall k :: k != id ==> (k in rows <==> k in s.rows) && (k in rows ==> rows[k] == s.rows[k]))
            && (rows == s.rows || id !in rows
                || (IsSet(rows[id].dueAt) ==> rows[id].dueAt.value > dueAt && rows[id].dueAt.value > tick))
  {
    if id in s.plans && s.plans[id].kind.Cron? && c.parses(s.plans[id].cronExpr) {
      NextDueIsLeast(c, s.plans[id].cronExpr, dueAt, tick);
    }
  }

  /** Claims in flight are for instants that had come when their scheduler looked. */
  predicate Sensible(w: World) {
    && (forall n :: n in w.nodes ==> Named(w.nodes[n].plans))
    && (forall i :: 0 <= i < |w.flights| ==> w.flights[i].dueAt <= w.flights[i].tick)
  }

  lemma NextIsSensible(c: Calendar, w: World, e: Event)
    requires Legal(c, w, e) && Sensible(w)
    ensures Sensible(Next(c, w, e))
  {
  }

  lemma FinishPays(c: Calendar, w: World, i: nat, now: Time, up: bool, id: string, d: Time)
    requires Lawful(c) && Sensible(w) && Legal(c, w, Finishes(i, now, up))
    ensures Tokens(Next(c, w, Finishes(i, now, up)), id, d) <= Tokens(w, id, d)
  {
    var f := w.flights[i];
    FlightTokensAt(w.flights, i, f, id, d);
    FinishMovesOn(c, View(w, f.node), f.id, f.dueAt, f.tick, now, up);
  }

  lemma ClaimPays(c: Calendar, w: World, e: Event, id: string, d: Time)
    requires e.Claims? && Legal(c, w, e)
    ensures Tokens(Next(c, w, e), id, d) <= Tokens(w, id, d)
  {
    FlightTokensAdd(w.flights, [Flight(e.node, e.id, e.dueAt, e.tick, false)], id, d);
  }

  /** No event dispatches or enables more than it was granted. */
  lemma EventPays(c: Calendar, w: World, e: Event, id: string, d: Time)
    requires Lawful(c) && Sensible(w) && Legal(c, w, e)
    ensures Sent(w, e, id, d) + Tokens(Next(c, w, e), id, d) <= Tokens(w, id, d) + Enrolled(c, e, id, d)
            + Rewritten(c, e, id, d)
  {
    match e
    case Claims(_, _, _, _, _, _, _) => ClaimPays(c, w, e, id, d);
    case Finishes(i, now, up) => FinishPays(c, w, i, now, up, id, d);
    case Dispatches(i, delivered) => FlightTokensAt(w.flights, i, w.flights[i].(dispatched := true), id, d);
    case Vanishes(i) => FlightTokensAt(w.flights, i, w.flights[i], id, d);
    case _ =>
  }

  lemma {:induction false} RunPays(c: Calendar, w: World, es: seq<Event>, id: string, d: Time)
    requires Lawful(c) && Sensible(w) && LegalRun(c, w, es)
    ensures AllSent(c, w, es, id, d) + Tokens(Run(c, w, es), id, d)
         <= Tokens(w, id, d) + AllEnrolled(c, es, id, d) + AllRewritten(c, es, id, d)
    decreases |es|
  {
    if es != [] {
      EventPays(c, w, es[0], id, d);
      NextIsSensible(c, w, es[0]);
      RunPays(c, Next(c, w, es[0]), es[1..], id, d);
    }
  }

  /** However the schedulers interleave, an instant of a schedule is dispatched at most as often as the schedule
      was registered, or rewritten by a recovery, with a due time up to that instant. */
  lemma DispatchesAreGranted(c: Calendar, es: seq<Event>, id: string, d: Time)
    requires Lawful(c) && LegalRun(c, GENESIS, es)
    ensures AllSent(c, GENESIS, es, id, d) <= AllEnrolled(c, es, id, d) + AllRewritten(c, es, id, d)
  {
    RunPays(c, GENESIS, es, id, d);
  }

  /** As long as no recovery rewrites a row, each registration is good for one dispatch of an instant at most. */
  lemma DispatchedOnce(c: Calendar, es: seq<Event>, id: string, d: Time)
    requires Lawful(c) && LegalRun(c, GENESIS, es) && forall i :: 0 <= i < |es| ==> !es[i].Rewrites?
    ensures AllSent(c, GENESIS, es, id, d) <= AllEnrolled(c, es, id, d)
  {
    DispatchesAreGranted(c, es, id, d);
    NothingRewritten(c, es, id, d);
  }

  lemma {:induction false} NothingRewritten(c: Calendar, es: seq<Event>, id: string, d: Time)
    requires forall i :: 0 <= i < |es| ==> !es[i].Rewrites?
    ensures AllRewritten(c, es, id, d) == 0
  {
    if es != [] {
      NothingRewritten(c, es[1..], id, d);
    }
  }

  /** A cron plan that was dispatched is put back unclaimed, under the creation time it had, for the least
      occurrence after both its old due time and the tick. */
  lemma CronMovesToNext(c: Calendar, s: SchedulerState, id: string, dueAt: Time, tick: Time, now: Time)
    requires Lawful(c) && Named(s.plans) && id in s.plans && s.plans[id].kind.Cron? && ValidPlan(c, s.plans[id])
    requires id in s.rows
    ensures var t := Finish(c, s, id, dueAt, tick, now, true);
            var next := NextDue(c, s.plans[id].cronExpr, dueAt, tick).value;
            && t.plans == s.plans && id in t.rows && t.rows[id].plan == s.plans[id]
            && Unclaimed(t.rows[id]) && t.rows[id].dueAt == Some(next) && t.due == s.due[id := next]
            && Occurs(c, s.plans[id].cronExpr, next) && next > dueAt && next > tick
            && (forall u :: Occurs(c, s.plans[id].cronExpr, u) && u > dueAt && u > tick ==> next <= u)
            && (s.rows[id].createdAt != ZERO_TIME ==> t.rows[id].createdAt == s.rows[id].createdAt)
  {
    NextDueIsLeast(c, s.plans[id].cronExpr, dueAt, tick);
  }

  /** One event more at the front of a run. */
  lemma RunFront(c: Calendar, w: World, e: Event, es: seq<Event>, id: string, d: Time)
    requires Legal(c, w, e) && LegalRun(c, Next(c, w, e), es)
    ensures LegalRun(c, w, [e] + es)
    ensures Run(c, w, [e] + es) == Run(c, Next(c, w, e), es)
    ensures AllSent(c, w, [e] + es, id, d) == Sent(w, e, id, d) + AllSent(c, Next(c, w, e), es, id, d)
    ensures AllEnrolled(c, [e] + es, id, d) == Enrolled(c, e, id, d) + AllEnrolled(c, es, id, d)
    ensures AllRewritten(c, [e] + es, id, d) == Rewritten(c, e, id, d) + AllRewritten(c, es, id, d)
  {
    assert ([e] + es)[1..] == es;
  }

  // ---- Each operation is such a run of events ----

  function ItemEvents(node: string, item: Item, at: nat, now: Time, owner: string, x: Weather): seq<Event> {
    var claim := Claims(node, item.plan.id, item.dueAt, now, owner, now, x.claims);
    if x.delivers then [claim, Dispatches(at, true), Finishes(at, now, x.finishes)] else [claim, Dispatches(at, false)]
  }

  lemma RunOne(c: Calendar, w: World, e: Event)
    requires Legal(c, w, e)
    ensures LegalRun(c, w, [e]) && Run(c, w, [e]) == Next(c, w, e)
  {
    assert [e][1..] == [];
    assert LegalRun(c, Next(c, w, e), []);
    assert Run(c, w, [e]) == Run(c, Next(c, w, e), []);
  }

  lemma RunTwo(c: Calendar, w: World, e: Event, f: Event)
    requires Legal(c, w, e) && Legal(c, Next(c, w, e), f)
    ensures LegalRun(c, w, [e, f]) && Run(c, w, [e, f]) == Next(c, Next(c, w, e), f)
  {
    RunOne(c, Next(c, w, e), f);
    assert [e, f][1..] == [f];
  }

  lemma RunThree(c: Calendar, w: World, e: Event, f: Event, g: Event)
    requires Legal(c, w, e) && Legal(c, Next(c, w, e), f) && Legal(c, Next(c, Next(c, w, e), f), g)
    ensures LegalRun(c, w, [e, f, g]) && Run(c, w, [e, f, g]) == Next(c, Next(c, Next(c, w, e), f), g)
  {
    RunTwo(c, Next(c, w, e), f, g);
    assert [e, f, g][1..] == [f, g];
  }

  lemma LastFlight(flights: seq<Flight>, f: Flight)
    ensures var (on, at) := (flights + [f], |flights|);
            Without(on, at) == flights && forall g ::
              on[at := g] == flights + [g] && Without(on[at := g], at) == flights
  {
    var (on, at) := (flights + [f], |flights|);
    assert on[..at] == flights && on[at + 1..] == [];
    forall g ensures on[at := g] == flights + [g] && Without(on[at := g], at) == flights {
      assert on[at := g][..at] == flights && on[at := g][at + 1..] == [];
    }
  }

  /** Running one due plan is claiming, dispatching and finishing it, alone. */
  lemma ItemIsEvents(c: Calendar, w: World, node: string, item: Item, now: Time, owner: string, x: Weather)
    requires item.dueAt <= now
    ensures var (s, sent) := RunItem(c, View(w, node), item, now, owner, x);
            var es := if sent then ItemEvents(node, item, |w.flights|, now, owner, x) else [];
            LegalRun(c, w, es) && View(Run(c, w, es), node) == s && Run(c, w, es).flights == w.flights
  {
    if RunItem(c, View(w, node), item, now, owner, x).1 {
      var at, f := |w.flights|, Flight(node, item.plan.id, item.dueAt, now, false);
      var claim := Claims(node, item.plan.id, item.dueAt, now, owner, now, x.claims);
      var claimed := Next(c, w, claim);
      LastFlight(w.flights, f);
      if x.delivers {
        RunThree(c, w, claim, Dispatches(at, true), Finishes(at, now, x.finishes));
      } else {
        RunTwo(c, w, claim, Dispatches(at, false));
      }
    }
  }

  /** What a recovery does to the table is a run of rewrites, at most one a listed row. */
  lemma {:induction false} SweepIsEvents(c: Calendar, w: World, r: Recovery, listing: seq<Row>, now: Time,
                                         failing: set<string>) returns (es: seq<Event>)
    ensures LegalRun(c, w, es) && |es| <= |listing| && forall i :: 0 <= i < |es| ==> es[i].Rewrites?
    ensures Run(c, w, es) == w.(rows := Sweep(c, r, w.rows, listing, now, failing).1)
    decreases |listing|
  {
    es := [];
    if listing != [] && r.ok {
      var row := listing[0];
      var (next, rows) := Visit(c, r, w.rows, row, now, row.plan.id !in failing);
      es := SweepIsEvents(c, w.(rows := rows), next, listing[1..], now, failing);
      if rows != w.rows {
        RunFront(c, w, Rewrites(row, now, true), es, row.plan.id, now);
        es := [Rewrites(row, now, true)] + es;
      }
    }
  }

  // ---- Each recovery can add a dispatch ----

  const ONCE := Plan("id", OneShot, "", 0, 5, "source", "type")

  function OnceRow(evidence: string, owner: string, at: Option<Time>, updated: Time): Row {
    Row(ONCE, Some(5), evidence, owner, at, 1, updated)
  }

  function OnceWorld(node: string, row: Row, flights: seq<Flight>): World {
    World(map["id" := row], map[node := Node(map["id" := ONCE], map["id" := 5])], flights)
  }

  /** A scheduler's name, as it stands in a claim. */
  predicate Proper(node: string) {
    Trimmed(node) && node != ""
  }

  lemma OnceSaves(c: Calendar, rows: Table, evidence: string, now: Time)
    requires Trimmed(evidence) && evidence != "" && now != ZERO_TIME
    ensures SavePlanRow(c, rows, OnceRow(evidence, "", None, now), now, true)
         == Some(rows["id" := OnceRow(evidence, "", None, now)])
  {
    TrimSpaceFixes(evidence);
    TrimSpaceFixes("");
  }

  lemma OnceClaims(c: Calendar, home: string, evidence: string, updated: Time, flights: seq<Flight>, node: string)
    requires Proper(node)
    ensures Next(c, OnceWorld(home, OnceRow(evidence, "", None, updated), flights), OnceClaim(node))
         == OnceWorld(home, OnceRow(evidence, node, Some(6), 6), flights + [Flight(node, "id", 5, 6, false)])
  {
    TrimSpaceFixes("id");
    TrimSpaceFixes(node);
    var row := OnceRow(evidence, "", None, updated);
    assert row.(claimOwner := node, claimedAt := Some(6), updatedAt := 6) == OnceRow(evidence, node, Some(6), 6);
    assert map["id" := row]["id" := OnceRow(evidence, node, Some(6), 6)]
        == map["id" := OnceRow(evidence, node, Some(6), 6)];
  }

  function OnceClaim(node: string): Event {
    Claims(node, "id", 5, 6, node, 6, true)
  }

  /** A recovery that finds the claim of this scheduler. */
  function Release(evidence: string, node: string): Event {
    Rewrites(OnceRow(evidence, node, Some(6), 6), 6, true)
  }

  lemma OnceReleases(c: Calendar, home: string, evidence: string, flights: seq<Flight>, node: string)
    requires Proper(node)
    ensures var w := OnceWorld(home, OnceRow(evidence, node, Some(6), 6), flights);
            && Legal(c, w, Release(evidence, node)) && Rewritten(c, Release(evidence, node), "id", 5) == 1
            && Next(c, w, Release(evidence, node)) == OnceWorld(home, OnceRow(RECOVERED_CLAIM, "", None, 6), flights)
  {
    TrimSpaceFixes(node);
    var listed := OnceRow(evidence, node, Some(6), 6);
    assert Released(listed, 6) == OnceRow(RECOVERED_CLAIM, "", None, 6);
    OnceSaves(c, map["id" := listed], RECOVERED_CLAIM, 6);
    assert map["id" := listed]["id" := Released(listed, 6)] == map["id" := Released(listed, 6)];
  }

  lemma OnceRegisters(c: Calendar, node: string)
    ensures Legal(c, GENESIS, Registers(node, ONCE, 1, true))
    ensures Enrolled(c, Registers(node, ONCE, 1, true), "id", 5) == 1
    ensures Next(c, GENESIS, Registers(node, ONCE, 1, true)) == OnceWorld(node, OnceRow(PERSISTED, "", None, 1), [])
  {
    OnceSaves(c, map[], PERSISTED, 1);
  }

  /** Each scheduler claims the row; a recovery releases every claim but the last while its owner is still at work, and
      then the owner dispatches. `n` claims are in flight already. */
  function Rounds(n: nat, evidence: string, nodes: seq<string>): seq<Event>
    decreases |nodes|
  {
    if nodes == [] then []
    else if |nodes| == 1 then [OnceClaim(nodes[0])] + [Dispatches(n, true)]
    else [OnceClaim(nodes[0])] + ([Release(evidence, nodes[0])]
         + ([Dispatches(n, true)] + Rounds(n + 1, RECOVERED_CLAIM, nodes[1..])))
  }

  /** The claim of a scheduler goes out, whatever the row has become. */
  lemma OnceDispatches(c: Calendar, home: string, row: Row, flights: seq<Flight>, node: string)
    ensures var w := OnceWorld(home, row, flights + [Flight(node, "id", 5, 6, false)]);
            var e := Dispatches(|flights|, true);
            && Legal(c, w, e) && Sent(w, e, "id", 5) == 1
            && Next(c, w, e) == OnceWorld(home, row, flights + [Flight(node, "id", 5, 6, true)])
  {
    var (f, g) := (Flight(node, "id", 5, 6, false), Flight(node, "id", 5, 6, true));
    assert (flights + [f])[|flights| := g] == flights + [g];
  }

  /** The last scheduler claims the row and dispatches. */
  lemma LastRound(c: Calendar, home: string, evidence: string, updated: Time, flights: seq<Flight>, node: string)
    requires Proper(node)
    ensures var (w, es) := (OnceWorld(home, OnceRow(evidence, "", None, updated), flights),
                            [OnceClaim(node)] + [Dispatches(|flights|, true)]);
            && LegalRun(c, w, es) && AllSent(c, w, es, "id", 5) == 1
            && AllEnrolled(c, es, "id", 5) == 0 && AllRewritten(c, es, "id", 5) == 0
  {
    var (w, e) := (OnceWorld(home, OnceRow(evidence, "", None, updated), flights), Dispatches(|flights|, true));
    OnceClaims(c, home, evidence, updated, flights, node);
    OnceDispatches(c, home, OnceRow(evidence, node, Some(6), 6), flights, node);
    RunLast(c, Next(c, w, OnceClaim(node)), e, "id", 5);
    RunFront(c, w, OnceClaim(node), [e], "id", 5);
  }

  /** A scheduler claims the row, a recovery releases the claim, the scheduler dispatches, and the others follow. */
  lemma OneRound(c: Calendar, home: string, evidence: string, updated: Time, flights: seq<Flight>, node: string,
                 rest: seq<Event>)
    requires Proper(node)
    requires LegalRun(c, OnceWorld(home, OnceRow(RECOVERED_CLAIM, "", None, 6),
                                   flights + [Flight(node, "id", 5, 6, true)]), rest)
    ensures var (w, es) := (OnceWorld(home, OnceRow(evidence, "", None, updated), flights),
                            [OnceClaim(node)] + ([Release(evidence, node)] + ([Dispatches(|flights|, true)] + rest)));
            var after := OnceWorld(home, OnceRow(RECOVERED_CLAIM, "", None, 6),
                                   flights + [Flight(node, "id", 5, 6, true)]);
            && LegalRun(c, w, es) && AllSent(c, w, es, "id", 5) == 1 + AllSent(c, after, rest, "id", 5)
            && AllEnrolled(c, es, "id", 5) == AllEnrolled(c, rest, "id", 5)
            && AllRewritten(c, es, "id", 5) == 1 + AllRewritten(c, rest, "id", 5)
  {
    var (w, e) := (OnceWorld(home, OnceRow(evidence, "", None, updated), flights), Dispatches(|flights|, true));
    var free := OnceRow(RECOVERED_CLAIM, "", None, 6);
    OnceClaims(c, home, evidence, updated, flights, node);
    var claimed := Next(c, w, OnceClaim(node));
    OnceReleases(c, home, evidence, claimed.flights, node);
    OnceDispatches(c, home, free, flights, node);
    RunFront(c, OnceWorld(home, free, claimed.flights), e, rest, "id", 5);
    RunFront(c, claimed, Release(evidence, node), [e] + rest, "id", 5);
    RunFront(c, w, OnceClaim(node), [Release(evidence, node)] + ([e] + rest), "id", 5);
  }

  lemma {:induction false} RoundsSend(c: Calendar, home: string, evidence: string, updated: Time, flights: seq<Flight>,
                                      nodes: seq<string>)
    requires nodes != [] && forall i :: 0 <= i < |nodes| ==> Proper(nodes[i])
    ensures var (w, es) := (OnceWorld(home, OnceRow(evidence, "", None, updated), flights),
                            Rounds(|flights|, evidence, nodes));
            && LegalRun(c, w, es) && AllSent(c, w, es, "id", 5) == |nodes|
            && AllEnrolled(c, es, "id", 5) == 0 && AllRewritten(c, es, "id", 5) == |nodes| - 1
    decreases |nodes|
  {
    if |nodes| == 1 {
      LastRound(c, home, evidence, updated, flights, nodes[0]);
    } else {
      var sent := flights + [Flight(nodes[0], "id", 5, 6, true)];
      RoundsSend(c, home, RECOVERED_CLAIM, 6, sent, nodes[1..]);
      OneRound(c, home, evidence, updated, flights, nodes[0], Rounds(|sent|, RECOVERED_CLAIM, nodes[1..]));
    }
  }

  /** A run of one event. */
  lemma RunLast(c: Calendar, w: World, e: Event, id: string, d: Time)
    requires Legal(c, w, e)
    ensures LegalRun(c, w, [e]) && AllSent(c, w, [e], id, d) == Sent(w, e, id, d)
    ensures AllEnrolled(c, [e], id, d) == Enrolled(c, e, id, d)
    ensures AllRewritten(c, [e], id, d) == Rewritten(c, e, id, d)
  {
    assert [e][1..] == [];
  }

  function StolenRun(nodes: seq<string>): seq<Event>
    requires nodes != []
  {
    [Registers(nodes[0], ONCE, 1, true)] + Rounds(0, PERSISTED, nodes)
  }

  /** The bound is met for every number of recoveries: one registration, k recoveries that release a claim still at
      work, and k + 1 dispatches of the same instant. */
  lemma StolenClaimsDispatchAgain(c: Calendar, nodes: seq<string>)
    requires nodes != [] && forall i :: 0 <= i < |nodes| ==> Proper(nodes[i])
    ensures LegalRun(c, GENESIS, StolenRun(nodes)) && AllSent(c, GENESIS, StolenRun(nodes), "id", 5) == |nodes|
    ensures AllEnrolled(c, StolenRun(nodes), "id", 5) == 1 && AllRewritten(c, StolenRun(nodes), "id", 5) == |nodes| - 1
  {
    OnceRegisters(c, nodes[0]);
    RoundsSend(c, nodes[0], PERSISTED, 1, [], nodes);
    RunFront(c, GENESIS, Registers(nodes[0], ONCE, 1, true), Rounds(0, PERSISTED, nodes), "id", 5);
  }
}
