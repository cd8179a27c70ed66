/** The rollout manager over its store (packages/runtime-core/rollout.go). */
module Rollouts {
  import opened Base
  import opened RolloutSpec

  class RolloutStore {
    var rows: map<string, Head>

    constructor ()
      ensures rows == map[]
    {
      rows := map[];
    }

    method SaveRolloutHead(head: Head, up: bool)
      requires head.pluginId == TrimSpace(head.pluginId)
      modifies this
      ensures rows == if up && Savable(head) then old(rows)[head.pluginId := Normalized(head)] else old(rows)
    {
      if !up || IsBlank(head.pluginId) || IsBlank(head.stable.version) || IsBlank(head.active.version) {
        return;
      }
      var candidate := head.candidate;
      if candidate.Some? {
        if IsBlank(candidate.value.version) {
          return;
        }
        candidate := Some(NormalizedSnapshot(candidate.value));
      }
      rows := rows[head.pluginId := head.(pluginId := TrimSpace(head.pluginId),
                                          stable := NormalizedSnapshot(head.stable),
                                          active := NormalizedSnapshot(head.active), candidate := candidate)];
    }
  }

  class RolloutManager {
    const store: RolloutStore
    var heads: map<string, Head>

    /** A manager starts from the heads that the store kept. */
    constructor (store: RolloutStore)
      ensures this.store == store
      ensures State() == Restart(RolloutState(map[], store.rows))
    {
      this.store := store;
      heads := map id | id in store.rows :: Normalized(store.rows[id]);
    }

    function State(): RolloutState
      reads this, store
    {
      RolloutState(heads, store.rows)
    }

    method PersistHead(head: Head, up: bool)
      modifies this, store
      ensures State() == Persist(old(State()), head, up)
    {
      var id := TrimSpace(head.pluginId);
      if id == "" {
        return;
      }
      TrimSpaceFixes(head.pluginId);
      TrimSpaceFixes(id);
      var named := head.(pluginId := id);
      store.SaveRolloutHead(named, up);
      heads := heads[id := named];
    }

    method Prepare(pluginId: string, m: Manifests, up: bool) returns (r: Reply)
      modifies this, store
      ensures (State(), r) == Perform(old(State()), Call.Prepare, pluginId, m, up)
    {
      var head := Evaluate(pluginId, m);
      if head.None? {
        return Err(NoManifest);
      }
      PersistHead(head.value, up);
      r := if head.value.status.Rejected? then Err(PreflightRejected) else Ok(EvaluatedRecord(head.value));
    }

    method ValidatePreparedState(id: string, head: Head, m: Manifests, up: bool) returns (r: Reply)
      modifies this, store
      ensures (State(), r) == Validate(old(State()), id, head, m, up)
      ensures r.Ok? ==> head.candidate.Some? && State() == old(State())
    {
      if head.phase != Candidate && head.phase != Canary {
        return Err(NotPrepared);
      }
      var now := Evaluate(id, m);
      if now.None? {
        return Err(NoManifest);
      }
      if now.value.status != Prepared {
        PersistHead(now.value, up);
        return Err(Drifted);
      }
      if now.value.candidate.None? || head.candidate.None? || now.value.stable.version != head.stable.version
         || now.value.candidate.value.version != head.candidate.value.version {
        PersistHead(now.value, up);
        return Err(Drifted);
      }
      var record := EvaluatedRecord(now.value);
      if head.phase == Canary {
        record := record.(phase := Canary, status := Canarying);
      }
      r := Ok(record);
    }

    method CanActivate(pluginId: string, m: Manifests, up: bool) returns (r: Reply)
      modifies this, store
      ensures (State(), r) == Perform(old(State()), Call.CanActivate, pluginId, m, up)
    {
      var id := TrimSpace(pluginId);
      if id == "" {
        return Err(NoPluginId);
      }
      TrimSpaceFixes(pluginId);
      TrimSpaceFixes(id);
      if id !in heads {
        return Err(NotFound);
      }
      r := ValidatePreparedState(id, Normalized(heads[id]), m, up);
    }

    method Activate(pluginId: string, m: Manifests, up: bool) returns (r: Reply)
      modifies this, store
      ensures (State(), r) == Perform(old(State()), Call.Activate, pluginId, m, up)
    {
      var id := TrimSpace(pluginId);
      if id == "" {
        return Err(NoPluginId);
      }
      TrimSpaceFixes(pluginId);
      TrimSpaceFixes(id);
      if id !in heads {
        return Err(NotFound);
      }
      var head := Normalized(heads[id]);
      r := ValidatePreparedState(id, head, m, up);
      if r.Err? {
        return;
      }
      var next := head.(phase := Stable, status := Activated, reason := NoReason, stable := head.candidate.value,
                        active := head.candidate.value, candidate := None);
      PersistHead(next, up);
      r := Ok(RecordOf(next));
    }

    method StartCanary(pluginId: string, m: Manifests, up: bool) returns (r: Reply)
      modifies this, store
      ensures (State(), r) == Perform(old(State()), Call.StartCanary, pluginId, m, up)
    {
      var id := TrimSpace(pluginId);
      if id == "" {
        return Err(NoPluginId);
      }
      TrimSpaceFixes(pluginId);
      TrimSpaceFixes(id);
      if id !in heads {
        return Err(NotFound);
      }
      var head := Normalized(heads[id]);
      r := ValidatePreparedState(id, head, m, up);
      if r.Err? {
        return;
      }
      if head.phase != Candidate {
        return Err(WrongPhase);
      }
      var next := head.(phase := Canary, status := Canarying, reason := NoReason, active := head.candidate.value);
      PersistHead(next, up);
      r := Ok(RecordOf(next));
    }

    method CanRollback(pluginId: string, m: Manifests) returns (r: Reply)
      ensures (State(), r) == Perform(State(), Call.CanRollback, pluginId, m, true)
    {
      var id := TrimSpace(pluginId);
      if id == "" {
        return Err(NoPluginId);
      }
      TrimSpaceFixes(pluginId);
      TrimSpaceFixes(id);
      if id !in heads {
        return Err(NotFound);
      }
      var head := Normalized(heads[id]);
      r := if head.phase == Canary || head.status == Activated then Ok(RollbackRecordOf(head)) else Err(WrongPhase);
    }

    method RollBack(pluginId: string, m: Manifests, up: bool) returns (r: Reply)
      modifies this, store
      ensures (State(), r) == Perform(old(State()), Call.RollBack, pluginId, m, up)
    {
      var id := TrimSpace(pluginId);
      if id == "" {
        return Err(NoPluginId);
      }
      TrimSpaceFixes(pluginId);
      TrimSpaceFixes(id);
      if id !in heads {
        return Err(NotFound);
      }
      var head := Normalized(heads[id]);
      if head.phase != Canary && head.status != Activated {
        return Err(WrongPhase);
      }
      var next := head.(phase := Stable, status := RolledBack, reason := NoReason, active := head.stable);
      PersistHead(next, up);
      r := Ok(RollbackRecordOf(next));
    }
  }
}
