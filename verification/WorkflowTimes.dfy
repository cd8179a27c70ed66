/** When the steps of a workflow were passed, and the one value that a resting workflow can have. */
module WorkflowTimes {
  import opened Base
  import opened Workflows
  import opened WorkflowMeaning

  /** What a run of a workflow was fed: its start, the clock reading under which each step was passed, and the events
      and child outcomes it accepted. */
  datatype Log = Log(start: Time, passed: seq<Time>, events: seq<string>, results: seq<JobResult>)

  /** The events that the first `i` steps wait for, in order. */
  function EventsBefore(steps: seq<WorkflowStep>, i: nat): seq<string>
    requires i <= |steps|
  {
    if i == 0 then [] else
    EventsBefore(steps, i - 1) + if steps[i - 1].kind.WaitEvent? then [steps[i - 1].value] else []
  }

  /** When execution reached step `i`: on passing the step before it. */
  function Reached(log: Log, i: nat): Time
    requires i <= |log.passed|
  {
    if i == 0 then log.start else log.passed[i - 1]
  }

  /** The steps up to `i` that were still open are passed now. */
  function Stamp(log: Log, i: nat, now: Time): Log {
    if i <= |log.passed| then log else log.(passed := log.passed + seq(i - |log.passed|, _ => now))
  }

  /** Every event wait was passed by its event; a sleep lasts its duration from the moment it was reached, and is passed
      no earlier than that. */
  predicate Timed(w: Workflow, log: Log) {
    && |log.passed| == w.currentIndex <= |w.steps| && log.events == EventsBefore(w.steps, w.currentIndex)
    && (w.sleepingUntil.Some? ==>
          && w.currentIndex < |w.steps|
          && w.sleepingUntil.value == Reached(log, w.currentIndex) + w.steps[w.currentIndex].duration)
    && SleptThrough(w.steps, log)
  }

  predicate SleptThrough(steps: seq<WorkflowStep>, log: Log) {
    forall j :: 0 <= j < |log.passed| && j < |steps| && steps[j].kind.Sleep? ==>
      log.passed[j] >= Reached(log, j) + steps[j].duration
  }

  /** A workflow that can go on at once has just reached its step. */
  predicate Current(w: Workflow, log: Log, now: Time)
    requires |log.passed| == w.currentIndex
  {
    StatusOf(w).Ready? ==> Reached(log, w.currentIndex) == now
  }

  lemma StampTwice(log: Log, i: nat, j: nat, now: Time)
    requires |log.passed| <= i <= j
    ensures Stamp(Stamp(log, i, now), j, now) == Stamp(log, j, now)
    ensures Stamp(log, |log.passed|, now) == log
  {
  }

  /** Passing one step: no event wait, and a sleep only when it is over. */
  lemma PassTimed(w: Workflow, log: Log, v: Workflow, now: Time)
    requires Timed(w, log) && w.currentIndex < |w.steps| && v.steps == w.steps && v.currentIndex == w.currentIndex + 1
    requires v.sleepingUntil.None? && !w.steps[w.currentIndex].kind.WaitEvent?
    requires w.steps[w.currentIndex].kind.Sleep? ==>
             now >= Reached(log, w.currentIndex) + w.steps[w.currentIndex].duration
    ensures Timed(v, Stamp(log, v.currentIndex, now)) && Current(v, Stamp(log, v.currentIndex, now), now)
  {
    assert Stamp(log, v.currentIndex, now).passed == log.passed + [now];
  }

  /** Passing an event wait by its event. */
  lemma EventTimed(w: Workflow, log: Log, v: Workflow, now: Time)
    requires Timed(w, log) && w.currentIndex < |w.steps| && v.steps == w.steps && v.currentIndex == w.currentIndex + 1
    requires v.sleepingUntil.None? && w.steps[w.currentIndex].kind.WaitEvent?
    ensures var log' := Stamp(log.(events := log.events + [w.steps[w.currentIndex].value]), v.currentIndex, now);
            Timed(v, log') && Current(v, log', now)
  {
    assert Stamp(log, v.currentIndex, now).passed == log.passed + [now];
  }

  lemma AdvanceTimed(w: Workflow, log: Log, now: Time)
    requires Timed(w, log) && StatusOf(w).Ready? && Current(w, log, now) && Advance(w, now).Ok?
    ensures var v := Advance(w, now).value;
            Timed(v, Stamp(log, v.currentIndex, now)) && Current(v, Stamp(log, v.currentIndex, now), now)
  {
    var v := Advance(w, now).value;
    if v.currentIndex == w.currentIndex {
      StampTwice(log, v.currentIndex, v.currentIndex, now);
    } else {
      PassTimed(w, log, v, now);
    }
  }

  /** A drive stamps the steps it passes with its clock reading. */
  lemma {:induction false} DriveTimed(w: Workflow, log: Log, now: Time)
    requires Timed(w, log) && Posture(w) && Current(w, log, now) && !Stalls(w, now) && Drive(w, now).Ok?
    ensures var v := Drive(w, now).value;
            v.currentIndex >= w.currentIndex && Timed(v, Stamp(log, v.currentIndex, now))
    decreases Rank(w, now)
  {
    StampTwice(log, w.currentIndex, w.currentIndex, now);
    if TurnOf(w, now).Again? {
      var next := TurnOf(w, now).next;
      TurnMakesProgress(w, now);
      if w.sleepingUntil.Some? {
        PassTimed(w, log, next, now);
      } else {
        AdvanceTimed(w, log, now);
      }
      TurnKeepsPosture(w, now);
      DriveTimed(next, Stamp(log, next.currentIndex, now), now);
      StampTwice(log, next.currentIndex, Drive(w, now).value.currentIndex, now);
    }
  }

  lemma TurnKeepsPosture(w: Workflow, now: Time)
    requires Posture(w) && TurnOf(w, now).Again?
    ensures Posture(TurnOf(w, now).next)
  {
  }

  /** The only value that a resting workflow can have at step `i` after this log. */
  ghost function AtRest(id: string, steps: seq<WorkflowStep>, i: nat, log: Log): Workflow
    requires i <= |steps| && |log.passed| == i && CallsBefore(steps, i) <= |log.results|
  {
    var kind := if i < |steps| then steps[i].kind else Plain;
    Workflow(id, steps, i, StateAfter(steps, i, log.results),
             if kind.WaitEvent? then steps[i].value else "",
             if kind.CallJob? then Some(AwaitedCall(steps[i])) else None,
             if kind.CallJob? then None else LastResult(steps, i, log.results),
             if kind.Sleep? then Some(Reached(log, i) + steps[i].duration) else None,
             i == |steps|,
             CompensatedBy(steps, i, log.results))
  }

  lemma RestingIs(w: Workflow, log: Log)
    requires Ran(w, log.results) && Timed(w, log) && !StatusOf(w).Ready?
    ensures w == AtRest(w.id, w.steps, w.currentIndex, log)
  {
  }
}
