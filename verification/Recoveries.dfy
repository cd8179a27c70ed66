/** Recovery after restarts: it delivers what was missed, and repeating it settles. */
module Recoveries {
  import opened Base
  import opened Jobs
  import opened Passes
  import opened Workflows
  import opened WorkflowMeaning
  import opened WorkflowRuntimes
  import opened WorkflowRuns
  import opened WorkflowTimes
  import opened WorkflowLaws

  // ---- Recovery equals delivery ----

  /** Applied to the same row at the same instant, recovery and delivery compute the same up to the time of update. */
  lemma SameComputed(jobs: map<string, Job>, id: string, row: Instance, log: Log, at: Time)
    requires RowSound(id, row, log) && (forall k :: k in jobs ==> jobs[k].id == k) && Missed(jobs, row.workflow).Some?
    ensures var restored := RestoreInstance(jobs, row, at);
            var r := DeliverOn(Some(row), row.pluginId, ResultOf(Missed(jobs, row.workflow).value), at);
            && (restored.Ok? <==> r.Ok?)
            && (restored.Ok? ==> restored.value == r.value.instance.(updatedAt := row.updatedAt))
  {
    var child := Missed(jobs, row.workflow).value;
    TrimSpaceFixes(row.workflow.waitingForJob.value.jobId);
    TrimSpaceFixes(TrimSpace(row.workflow.waitingForJob.value.jobId));
    assert MissedResult(child) == ResultOf(child);
    assert row.(workflowId := id, pluginId := row.pluginId, workflow := row.workflow.(id := id)) == row;
    AcceptsExactly(row.workflow, log.results, child);
  }

  /** Recovering a missed outcome leaves what delivering it at the same instant would have left. */
  lemma RecoveryIsDelivery(s: RuntimeState, id: string, log: Log, at: Time)
    requires Drivable(s.tables) && id in s.tables.instances && RowSound(id, s.tables.instances[id], log)
    requires at != ZERO_TIME
    requires forall k :: k in s.tables.jobs ==> s.tables.jobs[k].id == k
    requires Missed(s.tables.jobs, s.tables.instances[id].workflow).Some?
    ensures var row := s.tables.instances[id];
            var restored := RestoreInstance(s.tables.jobs, row, at);
            var call := Deliver(id, row.pluginId, Missed(s.tables.jobs, row.workflow).value);
            var (u, r) := Invoke(s, call, at, true);
            && (restored.Ok? <==> r.Ok?)
            && (restored.Ok? ==>
                  && restored.value == r.value.instance.(updatedAt := row.updatedAt)
                  && Found(u.tables, id) == Some(r.value.instance))
  {
    var row := s.tables.instances[id];
    var child := Missed(s.tables.jobs, row.workflow).value;
    SameComputed(s.tables.jobs, id, row, log, at);
    DeliverComputes(Some(row), id, row.pluginId, child, log, at);
    var r := Compute(Some(row), Deliver(id, row.pluginId, child), at);
    if r.Ok? {
      SaveWrites(Loaded(s, id), r.value.instance, false, true);
    }
  }

  // ---- Repeated recoveries settle ----

  /** What a recovery pass makes of one row, if it can be driven. */
  function RecoverRow(jobs: map<string, Job>, row: Instance, at: Time): Option<Instance> {
    if !NamedWaits(row.workflow.steps) then None
    else match RestoreInstance(jobs, row, at)
         case Ok(restored) => Some(restored)
         case Err(_) => None
  }

  /** The pass over one row, as a function of the row. */
  function Recovery(jobs: map<string, Job>, at: Time): Instance -> Option<Instance> {
    row => RecoverRow(jobs, row, at)
  }

  /** A row that was just recovered is left alone by the rest of the sweep. */
  lemma SweepsOn(cache: map<string, Instance>, w: World, next: World, listing: seq<Instance>, at: Time)
    requires listing != [] && Recoverable(listing) && IsListing(listing, w.s.tables.instances)
    requires Recovered(w, listing[0], at, true) == Some(next)
    ensures var (id, swept) := (listing[0].workflowId,
                                SweepInstances(cache, next.s.tables, listing[1..], at, {}).tables.instances);
            && IsListing(listing[1..], next.s.tables.instances) && next.s.tables.jobs == w.s.tables.jobs
            && id in swept && RestoreInstance(w.s.tables.jobs, listing[0], at) == Ok(swept[id])
  {
    TailListing(w, listing, at, true);
    RecoveredRow(w, listing[0], at, true);
    SweptElsewhere(next, listing[1..], at, {}, listing[0].workflowId);
    SweptTables(next, listing[1..], at, {}, cache);
  }

  /** The write of a recovered row is refused by no owner check, since the row keeps its owner. */
  lemma RecoversWhenDriven(w: World, row: Instance, at: Time)
    requires NamedWaits(row.workflow.steps) && Keyed(row.workflowId, row)
    requires row.workflowId in w.s.tables.instances && w.s.tables.instances[row.workflowId] == row
    ensures Recovered(w, row, at, true).Some? <==> RestoreInstance(w.s.tables.jobs, row, at).Ok?
  {
    if RestoreInstance(w.s.tables.jobs, row, at).Ok? {
      RestoredKeyed(w.s.tables.jobs, row, at);
    }
  }

  /** The first step of a sweep in which every write succeeds. */
  lemma SweepStarts(cache: map<string, Instance>, t: Tables, listing: seq<Instance>, at: Time)
    requires Recoverable(listing) && IsListing(listing, t.instances) && listing != []
    ensures match RecoverRow(t.jobs, listing[0], at)
            case None => SweepInstances(cache, t, listing, at, {}).tables == t
            case Some(restored) =>
              var u := t.(instances := t.instances[listing[0].workflowId := restored]);
              var (swept, rest) :=
                (SweepInstances(cache, t, listing, at, {}),
                 SweepInstances(cache[restored.workflowId := restored], u, listing[1..], at, {}));
              && swept == rest && IsListing(listing[1..], u.instances) && Recoverable(listing[1..])
              && listing[0].workflowId in rest.tables.instances
              && rest.tables.instances[listing[0].workflowId] == restored
  {
    var w := World(RuntimeState(cache, t), map[], []);
    RecoversWhenDriven(w, listing[0], at);
    if Recovered(w, listing[0], at, true).Some? {
      RecoveredRow(w, listing[0], at, true);
      var restored := RestoreRow(t, listing[0], at, true).value.0;
      SweepsOn(cache[restored.workflowId := restored], w, Recovered(w, listing[0], at, true).value, listing, at);
    }
  }

  /** A recovery in which every write succeeds is a pass over the listed rows. */
  lemma {:induction false} SweepIsPass(cache: map<string, Instance>, t: Tables, listing: seq<Instance>, at: Time,
                                       i: nat)
    requires Recoverable(listing) && IsListing(listing, t.instances) && i < |listing|
    ensures var swept := SweepInstances(cache, t, listing, at, {}).tables.instances;
            && listing[i].workflowId in swept
            && swept[listing[i].workflowId] == OnePass(Recovery(t.jobs, at), listing)[i]
    decreases |listing|
  {
    SweepStarts(cache, t, listing, at);
    match RecoverRow(t.jobs, listing[0], at)
    case None =>
    case Some(restored) =>
      var u := t.(instances := t.instances[listing[0].workflowId := restored]);
      assert OnePass(Recovery(t.jobs, at), listing) == [restored] + OnePass(Recovery(t.jobs, at), listing[1..]);
      if i > 0 {
        SweepIsPass(cache[restored.workflowId := restored], u, listing[1..], at, i - 1);
      }
  }

  /** Child jobs that a workflow has still to hear from. */
  function CallsLeft(w: Workflow): nat {
    if w.currentIndex > |w.steps| then 0 else
    CallsGrow(w.steps, w.currentIndex, |w.steps|);
    CallsBefore(w.steps, |w.steps|) - CallsBefore(w.steps, w.currentIndex)
  }

  ghost predicate IsSound(row: Instance) {
    exists log: Log :: RowSound(row.workflowId, row, log)
  }

  /** Recovery leaves the row alone, or cannot go on for more than `n` passes. */
  ghost predicate SettlesWithin(jobs: map<string, Job>, row: Instance, at: Time, n: nat) {
    && IsSound(row)
    && (RecoverRow(jobs, row, at) == Some(row) || (TurnOf(row.workflow, at).Halt? && CallsLeft(row.workflow) <= n))
  }

  lemma QuietRow(jobs: map<string, Job>, row: Instance, at: Time)
    requires IsSound(row) && TurnOf(row.workflow, at).Halt? && Missed(jobs, row.workflow).None?
    ensures RecoverRow(jobs, row, at) == Some(row)
  {
    var log: Log :| RowSound(row.workflowId, row, log);
    assert row.(workflowId := row.workflowId, pluginId := row.pluginId,
                workflow := row.workflow.(id := row.workflowId)) == row;
    NamedNeverStalls(row.workflow, at);
  }

  lemma NothingMissed(jobs: map<string, Job>, row: Instance)
    requires IsSound(row) && CallsLeft(row.workflow) <= 0
    ensures Missed(jobs, row.workflow).None?
  {
    var log: Log :| RowSound(row.workflowId, row, log);
    CallsGrow(row.workflow.steps, row.workflow.currentIndex, |row.workflow.steps|);
  }

  /** A pass uses up a call when it recovers an outcome, and always leaves the row at rest at this instant. */
  lemma PassUsesCalls(jobs: map<string, Job>, row: Instance, at: Time)
    requires IsSound(row) && at != ZERO_TIME && RecoverRow(jobs, row, at).Some?
    ensures var r := RecoverRow(jobs, row, at).value;
            && IsSound(r) && TurnOf(r.workflow, at).Halt?
            && CallsLeft(r.workflow) <= CallsLeft(row.workflow)
            && (Missed(jobs, row.workflow).Some? ==> CallsLeft(r.workflow) < CallsLeft(row.workflow))
  {
    var log: Log :| RowSound(row.workflowId, row, log);
    RestoredRow(jobs, row.workflowId, row, log, at);
    var r := RestoreInstance(jobs, row, at).value;
    CallsGrow(row.workflow.steps, row.workflow.currentIndex, r.workflow.currentIndex);
    assert RowSound(r.workflowId, r, RecalledLog(jobs, row, log, r, at));
  }

  lemma RowSettles(jobs: map<string, Job>, row: Instance, at: Time, n: nat)
    requires at != ZERO_TIME && RecoverRow(jobs, row, at).Some? && SettlesWithin(jobs, row, at, n)
    ensures n > 0 ==> SettlesWithin(jobs, RecoverRow(jobs, row, at).value, at, n - 1)
    ensures n == 0 ==> RecoverRow(jobs, row, at) == Some(row)
  {
    if RecoverRow(jobs, row, at) != Some(row) {
      PassUsesCalls(jobs, row, at);
      if Missed(jobs, row.workflow).None? {
        QuietRow(jobs, row, at);
      }
      if n == 0 {
        NothingMissed(jobs, row);
      }
    }
  }

  ghost function Settling(jobs: map<string, Job>, at: Time): (Instance, nat) -> bool {
    (row, n: nat) => SettlesWithin(jobs, row, at, n)
  }

  lemma RecoveryDescends(jobs: map<string, Job>, at: Time)
    requires at != ZERO_TIME
    ensures Descends(Recovery(jobs, at), Settling(jobs, at))
  {
    var f, p := Recovery(jobs, at), Settling(jobs, at);
    forall row, n: nat | p(row, n) && f(row).Some?
      ensures (n > 0 ==> p(f(row).value, n - 1)) && (n == 0 ==> f(row) == Some(row)) {
      RowSettles(jobs, row, at, n);
    }
  }

  lemma RecoveryIsClose(jobs: map<string, Job>, rows: seq<Instance>, at: Time, n: nat)
    requires at != ZERO_TIME && forall i :: 0 <= i < |rows| ==> IsSound(rows[i]) && CallsLeft(rows[i].workflow) <= n
    ensures Close(Recovery(jobs, at), Settling(jobs, at), OnePass(Recovery(jobs, at), rows), n)
  {
    var f, p := Recovery(jobs, at), Settling(jobs, at);
    forall i | 0 <= i < |rows| && f(rows[i]).Some? ensures p(f(rows[i]).value, n) {
      PassUsesCalls(jobs, rows[i], at);
    }
    FirstPass(f, p, rows, n);
  }

  /** With the clock and the jobs fixed, recovery stops changing the rows after one pass more than the largest number of
      child jobs that any of them has left to call. */
  lemma RecoverySettles(jobs: map<string, Job>, rows: seq<Instance>, at: Time, n: nat)
    requires at != ZERO_TIME && forall i :: 0 <= i < |rows| ==> IsSound(rows[i]) && CallsLeft(rows[i].workflow) <= n
    ensures var f := Recovery(jobs, at); OnePass(f, Times(f, rows, n + 1)) == Times(f, rows, n + 1)
  {
    RecoveryDescends(jobs, at);
    RecoveryIsClose(jobs, rows, at, n);
    PassesSettle(Recovery(jobs, at), Settling(jobs, at), OnePass(Recovery(jobs, at), rows), n);
  }

  // ---- Consecutive restarts ----

  /** Stored rows, listed in the order of these ids. */
  predicate Stored(t: Tables, ids: seq<string>) {
    && (forall i :: 0 <= i < |ids| ==> ids[i] in t.instances)
    && (forall i, j :: 0 <= i < j < |ids| ==> ids[i] != ids[j])
  }

  function RowsOf(t: Tables, ids: seq<string>): seq<Instance>
    requires Stored(t, ids)
  {
    seq(|ids|, i requires 0 <= i < |ids| => t.instances[ids[i]])
  }

  function IdsOf(listing: seq<Instance>): seq<string> {
    seq(|listing|, i requires 0 <= i < |listing| => listing[i].workflowId)
  }

  /** Nothing but restarts, all at one instant, with every write accepted and the rows listed in one order. */
  predicate Restarts(es: seq<Event>, ids: seq<string>, at: Time) {
    forall i :: 0 <= i < |es| ==>
      es[i].Reboots? && es[i].now == at && es[i].failing == {} && IdsOf(es[i].listing) == ids
  }

  lemma ListsRows(w: World, e: Event, ids: seq<string>)
    requires Sound(w) && e.Reboots? && IdsOf(e.listing) == ids
    ensures Legal(w, e) ==> Stored(w.s.tables, ids) && e.listing == RowsOf(w.s.tables, ids) && Recoverable(e.listing)
    ensures Stored(w.s.tables, ids) && e.listing == RowsOf(w.s.tables, ids) && e.now != ZERO_TIME ==> Legal(w, e)
  {
    SoundDrives(w);
    assert forall i :: 0 <= i < |ids| ==> IdsOf(e.listing)[i] == e.listing[i].workflowId;
  }

  lemma RestartElsewhere(w: World, e: Event, ids: seq<string>)
    requires Sound(w) && Legal(w, e) && e.Reboots? && IdsOf(e.listing) == ids
    ensures forall id :: id !in ids ==> Found(Step(w, e).s.tables, id) == Found(w.s.tables, id)
  {
    SoundDrives(w);
    ListsRows(w, e, ids);
    SweptTables(w, e.listing, e.now, e.failing, map[]);
    assert forall i :: 0 <= i < |ids| ==> IdsOf(e.listing)[i] == e.listing[i].workflowId;
    forall id | id !in ids ensures Found(Step(w, e).s.tables, id) == Found(w.s.tables, id) {
      SweptElsewhere(w, e.listing, e.now, e.failing, id);
    }
  }

  /** One restart is one pass over the rows that it lists; no other row and no job changes. */
  lemma RestartIsPass(w: World, e: Event, ids: seq<string>)
    requires Sound(w) && Legal(w, e) && e.Reboots? && e.failing == {} && IdsOf(e.listing) == ids
    ensures var (t, u) := (w.s.tables, Step(w, e).s.tables);
            && u.jobs == t.jobs && Stored(t, ids) && Stored(u, ids)
            && RowsOf(u, ids) == OnePass(Recovery(t.jobs, e.now), RowsOf(t, ids))
            && forall id :: id !in ids ==> Found(u, id) == Found(t, id)
  {
    SoundDrives(w);
    ListsRows(w, e, ids);
    var (t, u) := (w.s.tables, Step(w, e).s.tables);
    SweptTables(w, e.listing, e.now, {}, map[]);
    forall i | 0 <= i < |ids|
      ensures ids[i] in u.instances && u.instances[ids[i]] == OnePass(Recovery(t.jobs, e.now), e.listing)[i] {
      SweepIsPass(map[], t, e.listing, e.now, i);
    }
    RestartElsewhere(w, e, ids);
    assert RowsOf(u, ids) == OnePass(Recovery(t.jobs, e.now), RowsOf(t, ids));
  }

  /** What one restart leaves for the rest of them. */
  lemma FirstRestart(w: World, es: seq<Event>, ids: seq<string>, at: Time)
    requires Sound(w) && es != [] && LegalRun(w, es) && Restarts(es, ids, at)
    ensures var (t, next) := (w.s.tables, Step(w, es[0]));
            && Sound(next) && LegalRun(next, es[1..]) && Restarts(es[1..], ids, at)
            && next.s.tables.jobs == t.jobs && Stored(t, ids) && Stored(next.s.tables, ids)
            && RowsOf(next.s.tables, ids) == OnePass(Recovery(t.jobs, at), RowsOf(t, ids))
  {
    StepSound(w, es[0]);
    RestartIsPass(w, es[0], ids);
  }

  lemma {:induction false} RestartsArePasses(w: World, es: seq<Event>, ids: seq<string>, at: Time)
    requires Sound(w) && LegalRun(w, es) && Restarts(es, ids, at) && Stored(w.s.tables, ids)
    ensures var (t, w') := (w.s.tables, Run(w, es));
            && Sound(w') && w'.s.tables.jobs == t.jobs && Stored(w'.s.tables, ids)
            && RowsOf(w'.s.tables, ids) == Times(Recovery(t.jobs, at), RowsOf(t, ids), |es|)
    decreases |es|
  {
    if es != [] {
      FirstRestart(w, es, ids, at);
      RestartsArePasses(Step(w, es[0]), es[1..], ids, at);
    }
  }

  /** A restart can always follow: the rows that it listed can be listed again in the same order. */
  lemma RestartAgain(w: World, ids: seq<string>, at: Time) returns (e: Event)
    requires Sound(w) && Stored(w.s.tables, ids) && at != ZERO_TIME
    ensures Legal(w, e) && Restarts([e], ids, at)
  {
    e := Reboots(RowsOf(w.s.tables, ids), at, {});
    SoundDrives(w);
    assert IdsOf(e.listing) == ids;
    ListsRows(w, e, ids);
  }

  lemma SameTables(t: Tables, u: Tables, ids: seq<string>)
    requires t.jobs == u.jobs && Stored(t, ids) && Stored(u, ids) && RowsOf(t, ids) == RowsOf(u, ids)
    requires forall id :: id !in ids ==> Found(u, id) == Found(t, id)
    ensures t == u
  {
    forall id ensures Found(u, id) == Found(t, id) {
      if id in ids {
        var i :| 0 <= i < |ids| && ids[i] == id;
        assert RowsOf(t, ids)[i] == RowsOf(u, ids)[i];
      }
    }
    forall id ensures id in t.instances <==> id in u.instances
      ensures id in t.instances ==> t.instances[id] == u.instances[id] {
      assert Found(u, id) == Found(t, id);
    }
  }

  lemma SoundRows(w: World, ids: seq<string>)
    requires Sound(w) && Stored(w.s.tables, ids)
    ensures forall i :: 0 <= i < |ids| ==> IsSound(RowsOf(w.s.tables, ids)[i])
  {
    forall i | 0 <= i < |ids| ensures IsSound(RowsOf(w.s.tables, ids)[i]) {
      var row := w.s.tables.instances[ids[i]];
      assert SoundAt(w, ids[i]);
      assert RowSound(row.workflowId, row, LogOf(w, ids[i]));
    }
  }

  /** In a sound world, one restart more than there are calls left in any listed workflow makes all of them rest. */
  lemma RestartsRest(w: World, es: seq<Event>, ids: seq<string>, at: Time)
    requires Sound(w) && LegalRun(w, es) && Restarts(es, ids, at) && Stored(w.s.tables, ids) && at != ZERO_TIME
    requires es != [] && forall i :: 0 <= i < |ids| ==> CallsLeft(w.s.tables.instances[ids[i]].workflow) < |es|
    ensures var u := Run(w, es).s.tables;
            Stored(u, ids) && OnePass(Recovery(u.jobs, at), RowsOf(u, ids)) == RowsOf(u, ids)
  {
    RestartsArePasses(w, es, ids, at);
    SoundRows(w, ids);
    RecoverySettles(w.s.tables.jobs, RowsOf(w.s.tables, ids), at, |es| - 1);
  }

  /** Consecutive restarts from any reachable world, with the clock and the jobs as they are: once they outnumber the
      child jobs that any listed workflow still calls, one more restart leaves every row as it is. */
  lemma RestartsSettle(history: seq<Event>, es: seq<Event>, again: Event, ids: seq<string>, at: Time)
    requires LegalRun(GENESIS, history) && Stored(Run(GENESIS, history).s.tables, ids) && at != ZERO_TIME
    requires LegalRun(Run(GENESIS, history), es) && Restarts(es, ids, at) && es != []
    requires Legal(Run(Run(GENESIS, history), es), again) && Restarts([again], ids, at)
    requires forall i :: 0 <= i < |ids| ==>
               CallsLeft(Run(GENESIS, history).s.tables.instances[ids[i]].workflow) < |es|
    ensures var w := Run(Run(GENESIS, history), es); Step(w, again).s.tables == w.s.tables
  {
    GenesisSound();
    RunSound(GENESIS, history);
    RunSound(Run(GENESIS, history), es);
    RestartsRest(Run(GENESIS, history), es, ids, at);
    SettledRestart(Run(Run(GENESIS, history), es), again, ids, at);
  }

  lemma SettledRestart(w: World, e: Event, ids: seq<string>, at: Time)
    requires Sound(w) && Legal(w, e) && Restarts([e], ids, at) && Stored(w.s.tables, ids)
    requires OnePass(Recovery(w.s.tables.jobs, at), RowsOf(w.s.tables, ids)) == RowsOf(w.s.tables, ids)
    ensures Step(w, e).s.tables == w.s.tables
  {
    assert [e][0] == e;
    RestartIsPass(w, e, ids);
    SameTables(w.s.tables, Step(w, e).s.tables, ids);
  }
}
