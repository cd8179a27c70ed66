/** The dispatch of a queued job, step by step on the queue
    (packages/runtime-core/runtime.go, plugins/plugin-ai-chat/plugin.go). */
module Dispatches {
  import opened Base
  import opened Jobs
  import opened QueueSpec
  import opened JobQueues
  import opened DispatchSpec

  class Dispatcher {
    const queue: JobQueue

    constructor (queue: JobQueue)
      ensures this.queue == queue
    {
      this.queue := queue;
    }

    /** Heartbeats that the lease keeper sends while the plugin works. */
    method Beat(id: string, beats: seq<Tick>)
      modifies queue`jobs, queue.store
      ensures queue.State() == Beaten(queue.Cfg(), old(queue.State()), id, beats)
    {
      for i := 0 to |beats|
        invariant Beaten(queue.Cfg(), old(queue.State()), id, beats)
               == Beaten(queue.Cfg(), queue.State(), id, beats[i..])
      {
        assert beats[i..][0] == beats[i] && beats[i..][1..] == beats[i + 1..];
        var _ := queue.Heartbeat(id, beats[i].now, beats[i].up);
      }
    }

    /** The first section of a report. */
    method Look(original: Job) returns (look: FirstLook)
      ensures look == LookFirst(queue.State(), original)
    {
      var inspected := queue.Inspect(original.id);
      if inspected.Err? {
        return Judges(Ends(Some(inspected.error)));
      }
      if inspected.value.status.Pending? && StateUnchanged(original, inspected.value) {
        return Marks;
      }
      look := Judges(Judged(original, inspected.value));
    }

    /** All sections of a report, with nothing in between. */
    method FailAfterDispatchError(original: Job, reason: string, claim: Tick, fail: Tick)
      returns (error: Option<QueueError>)
      modifies queue`jobs, queue`dead, queue.store
      ensures (queue.State(), error) == FailDispatch(queue.Cfg(), old(queue.State()), original, reason, claim, fail)
    {
      var look := Look(original);
      var verdict: Verdict;
      if look.Judges? {
        verdict := look.verdict;
      } else {
        var marked := queue.MarkRunning(original.id, claim.now, claim.up);
        if marked.Err? {
          return Some(marked.error);
        }
        var inspected := queue.Inspect(original.id);
        verdict := if inspected.Err? then Ends(Some(inspected.error)) else Judged(original, inspected.value);
      }
      if verdict.Ends? {
        return verdict.error;
      }
      var failed := queue.FailWithReasonCode(original.id, reason, verdict.code, fail.now, fail.up);
      error := ErrorOf(failed);
    }

    /** The plugin's work on a claimed job: generate, reply, and close the run. */
    method Work(id: string, script: Script) returns (failed: bool)
      modifies queue`jobs, queue`dead, queue.store
      ensures (queue.State(), failed) == Worked(queue.Cfg(), old(queue.State()), id, script)
    {
      Beat(id, script.firstBeats);
      if !script.generated {
        var closed := queue.Fail(id, "generate", script.close.now, script.close.up);
        if closed.Err? {
          return true;
        }
        return !closed.value.status.Dead? || !script.noticed;
      }
      Beat(id, script.secondBeats);
      if !script.replied {
        var closed := queue.Fail(id, "reply", script.close.now, script.close.up);
        if closed.Err? {
          return true;
        }
        return !closed.value.status.Dead?;
      }
      var closed := queue.Complete(id, script.close.now, script.close.up);
      failed := closed.Err?;
    }

    /** The plugin's side of a dispatch, which claims the job first when nobody has. */
    method ProcessJob(id: string, script: Script) returns (failed: bool)
      modifies queue`jobs, queue`dead, queue.store
      ensures (queue.State(), failed) == Visited(queue.Cfg(), old(queue.State()), id, script)
    {
      var inspected := queue.Inspect(id);
      if inspected.Err? {
        return true;
      }
      if !inspected.value.status.Running? {
        var claimed := queue.MarkRunning(id, script.claim.now, script.claim.up);
        if claimed.Err? {
          return true;
        }
      }
      failed := Work(id, script);
    }

    /** Hands a job to every plugin that takes it, in turn. */
    method DispatchToPlugins(id: string, scripts: seq<Script>) returns (delivered: bool)
      modifies queue`jobs, queue`dead, queue.store
      ensures (queue.State(), delivered) == Handed(Visits(queue.Cfg(), id), old(queue.State()), scripts, false)
    {
      delivered := false;
      for i := 0 to |scripts|
        invariant Handed(Visits(queue.Cfg(), id), old(queue.State()), scripts, false)
               == Handed(Visits(queue.Cfg(), id), queue.State(), scripts[i..], delivered)
      {
        assert scripts[i..][0] == scripts[i] && scripts[i..][1..] == scripts[i + 1..];
        if scripts[i].reached {
          var failed := ProcessJob(id, scripts[i]);
          delivered := delivered || (!failed && scripts[i].answered);
        }
      }
    }

    /** Dispatches a job and reports the failure when no plugin delivered. */
    method DispatchQueuedJob(job: Job, scripts: seq<Script>, report: Report) returns (failed: bool)
      modifies queue`jobs, queue`dead, queue.store
      ensures (queue.State(), failed) == Dispatched(queue.Cfg(), old(queue.State()), job, scripts, report)
    {
      var delivered := DispatchToPlugins(job.id, scripts);
      failed := !delivered;
      if failed {
        Beat(job.id, report.lastBeats);
        var _ := FailAfterDispatchError(job, "dispatch", report.claim, report.fail);
      }
    }
  }
}
