/** What a recovery of a scheduler loads, rewrites and counts, and when it fails. */
module ScheduleRecoveries {
  import opened Base
  import opened ScheduleStores
  import opened ScheduleSpec
  import opened ScheduleLaws
  import opened ScheduleTicks

  // ---- One row ----

  /** Claimed by a scheduler that did not finish with it, although its plan was due. */
  predicate Stuck(row: Row, now: Time) {
    && !IsBlank(row.claimOwner) && row.claimedAt.Some? && row.claimedAt.value != ZERO_TIME
    && row.dueAt.Some? && row.dueAt.value != ZERO_TIME && row.dueAt.value <= now
  }

  predicate Undue(row: Row) {
    row.dueAt.None? || row.dueAt.value == ZERO_TIME
  }

  /** A row that recovery has to write back. */
  predicate Rewritten(c: Calendar, row: Row, now: Time) {
    Schedulable(c, row.plan) && (Stuck(row, now) || Undue(row))
  }

  /** The due time that is put back: counted from the creation of the row, and from now only when the creation is
      unknown or gives the zero instant. */
  ghost predicate DueAgain(c: Calendar, row: Row, now: Time, due: Time) {
    var created := if row.createdAt == ZERO_TIME then now else row.createdAt;
    match row.plan.kind
    case Delay =>
      due == if row.createdAt != ZERO_TIME && row.createdAt + row.plan.delay != ZERO_TIME
             then row.createdAt + row.plan.delay else now + row.plan.delay
    case OneShot => due == row.plan.executeAt
    case Cron =>
      || (due != ZERO_TIME && FirstAfter(c, row.plan.cronExpr, created, created, due))
      || (FirstAfter(c, row.plan.cronExpr, created, created, ZERO_TIME)
          && FirstAfter(c, row.plan.cronExpr, now, now, due))
    case Unsupported(_) => false
  }

  /** What recovery makes of a row: a stuck claim is released, a missing due time is put back, and any other row, also
      one whose plan cannot be scheduled, stays as it is. */
  ghost predicate RecoversTo(c: Calendar, row: Row, now: Time, after: Row) {
    var created := if row.createdAt == ZERO_TIME then now else row.createdAt;
    if !Rewritten(c, row, now) then after == row
    else if Stuck(row, now) then
      after == row.(claimOwner := "", claimedAt := None, evidence := "recovered-claimed-schedule-due-at",
                    createdAt := created, updatedAt := now)
    else
      && after.dueAt.Some? && DueAgain(c, row, now, after.dueAt.value)
      && after == Row(row.plan, after.dueAt,
                      if IsBlank(row.evidence) then "recovered-schedule-due-at" else TrimSpace(row.evidence), "", None,
                      created, now)
  }

  lemma DueAgainExactly(c: Calendar, row: Row, now: Time)
    requires Lawful(c) && now > 0 && Schedulable(c, row.plan)
    ensures RepairedDue(c, row, now).Some?
    ensures Undue(row) ==> DueAgain(c, row, now, RepairedDue(c, row, now).value)
  {
    if row.plan.kind.Cron? {
      var created := if row.createdAt == ZERO_TIME then now else row.createdAt;
      NextDueIsLeast(c, row.plan.cronExpr, created, created);
      NextDueIsLeast(c, row.plan.cronExpr, now, now);
    }
  }

  lemma RewrittenExactly(c: Calendar, row: Row, now: Time)
    requires Lawful(c) && now > 0
    ensures Loads(c, row, now) <==> Schedulable(c, row.plan)
    ensures Loads(c, row, now) && Rewrite(c, row, now).Some? <==> Rewritten(c, row, now)
    ensures Abandoned(row, now) <==> Stuck(row, now)
  {
    if Schedulable(c, row.plan) {
      DueAgainExactly(c, row, now);
    }
  }

  lemma ReleasedIs(row: Row, now: Time)
    requires now != ZERO_TIME
    ensures Normalized(Released(row, now), now)
         == row.(claimOwner := "", claimedAt := None, evidence := "recovered-claimed-schedule-due-at",
                 createdAt := if row.createdAt == ZERO_TIME then now else row.createdAt, updatedAt := now)
  {
    assert TrimSpace("") == "";
    TrimSpaceFixes(RECOVERED_CLAIM);
  }

  lemma RepairedIs(row: Row, due: Time, now: Time)
    requires now != ZERO_TIME
    ensures Normalized(Repaired(row, due, now), now)
         == Row(row.plan, Some(due),
                if IsBlank(row.evidence) then "recovered-schedule-due-at" else TrimSpace(row.evidence), "", None,
                if row.createdAt == ZERO_TIME then now else row.createdAt, now)
  {
    assert TrimSpace("") == "";
    TrimSpaceFixes(RECOVERED_STARTUP);
    TrimSpaceFixes(row.evidence);
    TrimSpaceFixes(TrimSpace(row.evidence));
  }

  lemma RecoveredExactly(c: Calendar, row: Row, now: Time)
    requires Lawful(c) && now > 0
    ensures RecoversTo(c, row, now, RecoveredRow(c, row, now))
  {
    RewrittenExactly(c, row, now);
    if Rewritten(c, row, now) {
      if Stuck(row, now) {
        ReleasedIs(row, now);
      } else {
        DueAgainExactly(c, row, now);
        RepairedIs(row, RepairedDue(c, row, now).value, now);
      }
    }
  }

  // ---- The whole table ----

  /** A row whose write the database refuses. */
  predicate Refused(c: Calendar, row: Row, now: Time, failing: set<string>) {
    Rewritten(c, row, now) && row.plan.id in failing
  }

  function Plus(a: Snapshot, b: Snapshot): Snapshot {
    Snapshot(a.total + b.total, a.recovered + b.recovered, a.claims + b.claims, a.invalid + b.invalid)
  }

  /** What one row adds to the counts of rows, of rewritten ones, of released claims and of plans that cannot be
      scheduled. */
  function Mark(c: Calendar, row: Row, now: Time): Snapshot {
    Snapshot(1, if Rewritten(c, row, now) then 1 else 0,
             if Schedulable(c, row.plan) && Stuck(row, now) then 1 else 0, if Schedulable(c, row.plan) then 0 else 1)
  }

  function Tally(c: Calendar, rows: seq<Row>, now: Time): Snapshot {
    if rows == [] then Snapshot(0, 0, 0, 0) else Plus(Mark(c, rows[0], now), Tally(c, rows[1..], now))
  }

  lemma VisitCounts(c: Calendar, r: Recovery, rows: Table, row: Row, now: Time, failing: set<string>)
    requires Lawful(c) && now > 0 && r.ok
    ensures var next := Visit(c, r, rows, row, now, row.plan.id !in failing).0;
            && next.ok == !Refused(c, row, now, failing)
            && (next.ok ==> next.snapshot == Plus(r.snapshot, Mark(c, row, now)))
  {
    RewrittenExactly(c, row, now);
  }

  lemma PlusMoves(a: Snapshot, b: Snapshot, c: Snapshot)
    ensures Plus(Plus(a, b), c) == Plus(a, Plus(b, c))
  {
  }

  lemma {:induction false} SweepSucceeds(c: Calendar, r: Recovery, rows: Table, listing: seq<Row>, now: Time,
                                         failing: set<string>)
    requires Lawful(c) && now > 0 && r.ok
    ensures Sweep(c, r, rows, listing, now, failing).0.ok <==>
            forall i :: 0 <= i < |listing| ==> !Refused(c, listing[i], now, failing)
    decreases |listing|
  {
    if listing != [] {
      var (row, rest) := (listing[0], listing[1..]);
      var (next, written) := Visit(c, r, rows, row, now, row.plan.id !in failing);
      VisitCounts(c, r, rows, row, now, failing);
      assert forall i :: 0 < i < |listing| ==> listing[i] == rest[i - 1];
      if next.ok {
        SweepSucceeds(c, next, written, rest, now, failing);
      }
    }
  }

  lemma {:induction false} SweepCounts(c: Calendar, r: Recovery, rows: Table, listing: seq<Row>, now: Time,
                                       failing: set<string>)
    requires Lawful(c) && now > 0 && r.ok && Sweep(c, r, rows, listing, now, failing).0.ok
    ensures Sweep(c, r, rows, listing, now, failing).0.snapshot == Plus(r.snapshot, Tally(c, listing, now))
    decreases |listing|
  {
    if listing != [] {
      var (row, rest) := (listing[0], listing[1..]);
      var (next, written) := Visit(c, r, rows, row, now, row.plan.id !in failing);
      VisitCounts(c, r, rows, row, now, failing);
      PlusMoves(r.snapshot, Mark(c, row, now), Tally(c, rest, now));
      SweepCounts(c, next, written, rest, now, failing);
    }
  }

  /** Up to the first row whose write is refused the rows are recovered; that one and the later ones stay as they
      were. */
  predicate FirstRefused(c: Calendar, listing: seq<Row>, now: Time, failing: set<string>, k: nat) {
    && k < |listing| && Refused(c, listing[k], now, failing)
    && forall i :: 0 <= i < k ==> !Refused(c, listing[i], now, failing)
  }

  lemma VisitRecovers(c: Calendar, r: Recovery, rows: Table, row: Row, now: Time, failing: set<string>)
    requires Lawful(c) && now > 0 && r.ok && !Refused(c, row, now, failing)
    requires row.plan.id in rows && rows[row.plan.id] == row
    ensures var written := Visit(c, r, rows, row, now, row.plan.id !in failing).1;
            row.plan.id in written && RecoversTo(c, row, now, written[row.plan.id])
  {
    RewrittenExactly(c, row, now);
    RecoveredExactly(c, row, now);
    assert Visit(c, r, rows, row, now, row.plan.id !in failing).1[row.plan.id] == RecoveredRow(c, row, now);
  }

  lemma {:induction false} SweepStops(c: Calendar, r: Recovery, rows: Table, listing: seq<Row>, now: Time,
                                      failing: set<string>, k: nat, i: nat)
    requires Lawful(c) && now > 0 && r.ok && i < |listing| && FirstRefused(c, listing, now, failing, k)
    requires forall i, j :: 0 <= i < j < |listing| ==> listing[i].plan.id != listing[j].plan.id
    requires forall i :: 0 <= i < |listing| ==> listing[i].plan.id in rows && rows[listing[i].plan.id] == listing[i]
    ensures var (id, written) := (listing[i].plan.id, Sweep(c, r, rows, listing, now, failing).1);
            id in written && if i < k then RecoversTo(c, rows[id], now, written[id]) else written[id] == rows[id]
    decreases |listing|
  {
    var (row, rest) := (listing[0], listing[1..]);
    var (next, written) := Visit(c, r, rows, row, now, row.plan.id !in failing);
    VisitCounts(c, r, rows, row, now, failing);
    VisitElsewhere(c, r, rows, row, now, row.plan.id !in failing);
    assert forall j :: 0 <= j < |rest| ==> rest[j] == listing[j + 1];
    if k == 0 {
      assert Sweep(c, next, written, rest, now, failing).1 == written == rows;
    } else if i == 0 {
      VisitRecovers(c, r, rows, row, now, failing);
      SweepPartly(c, next, written, rest, now, failing, row.plan.id);
    } else {
      SweepStops(c, next, written, rest, now, failing, k - 1, i - 1);
    }
  }

  /** What a recovery that was refused a write leaves: memory as it was, and the table from the refused row on. */
  ghost predicate StoppedAt(c: Calendar, s: SchedulerState, t: SchedulerState, listing: seq<Row>, now: Time, k: nat) {
    && t.plans == s.plans && t.due == s.due && t.rows.Keys == s.rows.Keys
    && forall i :: 0 <= i < |listing| && listing[i].plan.id in s.rows ==>
         var id := listing[i].plan.id;
         if i < k then RecoversTo(c, s.rows[id], now, t.rows[id]) else t.rows[id] == s.rows[id]
  }

  /** What a finished recovery leaves: every row recovered, and exactly the plans that can be scheduled loaded, with the
      due times that their rows now have. */
  ghost predicate RestoredTo(c: Calendar, s: SchedulerState, t: SchedulerState, now: Time) {
    && t.rows.Keys == s.rows.Keys && t.due.Keys == t.plans.Keys
    && (forall id :: id in s.rows ==> RecoversTo(c, s.rows[id], now, t.rows[id]))
    && (forall id :: id in t.plans <==> id in s.rows && Schedulable(c, s.rows[id].plan))
    && (forall id :: id in t.plans ==> t.plans[id] == s.rows[id].plan && t.rows[id].dueAt == Some(t.due[id]))
  }

  lemma StopsAt(c: Calendar, s: SchedulerState, listing: seq<Row>, now: Time, failing: set<string>, k: nat)
    requires Lawful(c) && now > 0 && IsListing(listing, s.rows) && FirstRefused(c, listing, now, failing, k)
    ensures var (t, snapshot) := Restore(c, s, listing, now, failing);
            snapshot.None? && StoppedAt(c, s, t, listing, now, k)
  {
    SweepSucceeds(c, NOTHING_RECOVERED, s.rows, listing, now, failing);
    var t := Restore(c, s, listing, now, failing).0;
    forall id ensures id in t.rows <==> id in s.rows {
      SweepPartly(c, NOTHING_RECOVERED, s.rows, listing, now, failing, id);
    }
    forall i | 0 <= i < |listing|
      ensures var id := listing[i].plan.id;
              if i < k then RecoversTo(c, s.rows[id], now, t.rows[id]) else t.rows[id] == s.rows[id] {
      SweepStops(c, NOTHING_RECOVERED, s.rows, listing, now, failing, k, i);
    }
  }

  lemma LoadsAndRecovers(c: Calendar, s: SchedulerState, t: SchedulerState, now: Time)
    requires Lawful(c) && now > 0 && t.rows == RecoveredTable(c, s.rows, now)
    requires t.plans == LoadedPlans(c, s.rows, now) && LoadedDue(c, s.rows, now, t.due)
    ensures RestoredTo(c, s, t, now)
  {
    forall id | id in s.rows
      ensures RecoversTo(c, s.rows[id], now, RecoveredRow(c, s.rows[id], now))
      ensures Loads(c, s.rows[id], now) <==> Schedulable(c, s.rows[id].plan) {
      RewrittenExactly(c, s.rows[id], now);
      RecoveredExactly(c, s.rows[id], now);
    }
  }

  lemma Finishes(c: Calendar, s: SchedulerState, listing: seq<Row>, now: Time, failing: set<string>)
    requires Lawful(c) && now > 0 && IsListing(listing, s.rows)
    requires forall i :: 0 <= i < |listing| ==> !Refused(c, listing[i], now, failing)
    ensures var (t, snapshot) := Restore(c, s, listing, now, failing);
            snapshot == Some(Tally(c, listing, now)) && RestoredTo(c, s, t, now)
  {
    SweepSucceeds(c, NOTHING_RECOVERED, s.rows, listing, now, failing);
    SweepCounts(c, NOTHING_RECOVERED, s.rows, listing, now, failing);
    RestoreIs(c, s, listing, now, failing);
    LoadsAndRecovers(c, s, Restore(c, s, listing, now, failing).0, now);
  }

  lemma {:induction false} SomeFirst(c: Calendar, listing: seq<Row>, now: Time, failing: set<string>, i: nat)
    returns (k: nat)
    requires i < |listing| && Refused(c, listing[i], now, failing)
    ensures FirstRefused(c, listing, now, failing, k)
  {
    if j: nat :| j < i && Refused(c, listing[j], now, failing) {
      k := SomeFirst(c, listing, now, failing, j);
    } else {
      k := i;
    }
  }

  /** A recovery fails exactly when a write that it asks for is refused, and then memory stays as it was, and so does
      the table from the first such row on. Otherwise every row is recovered, exactly the plans that can be scheduled
      are loaded, and the snapshot counts what was done. */
  lemma RestoresExactly(c: Calendar, s: SchedulerState, listing: seq<Row>, now: Time, failing: set<string>)
    requires Lawful(c) && now > 0 && IsListing(listing, s.rows)
    ensures var (t, snapshot) := Restore(c, s, listing, now, failing);
            if exists i :: 0 <= i < |listing| && Refused(c, listing[i], now, failing) then
              && snapshot.None?
              && exists k: nat :: FirstRefused(c, listing, now, failing, k) && StoppedAt(c, s, t, listing, now, k)
            else snapshot == Some(Tally(c, listing, now)) && RestoredTo(c, s, t, now)
  {
    if i :| 0 <= i < |listing| && Refused(c, listing[i], now, failing) {
      var k := SomeFirst(c, listing, now, failing, i);
      StopsAt(c, s, listing, now, failing, k);
    } else {
      Finishes(c, s, listing, now, failing);
    }
  }
}
