/** What each rollout call answers and leaves, field by field, in every reachable state. */
module RolloutCalls {
  import opened Base
  import opened RolloutSpec
  import opened RolloutLaws

  // ---- Manifests ----

  /** A manifest as a rollout reads it: without the spaces around its fields. */
  function Reading(m: Manifest): Snapshot {
    Snapshot(TrimSpace(m.version), TrimSpace(m.apiVersion), TrimSpace(m.mode))
  }

  /** Two manifests that a plugin may move between. */
  predicate Fits(id: string, current: Manifest, candidate: Manifest) {
    && current.id == id == candidate.id && current.mode == candidate.mode
    && current.apiVersion == candidate.apiVersion != "" && current.version != candidate.version
  }

  /** The first thing that is wrong with two manifests, ids before modes before API versions before versions. */
  predicate WrongFirst(id: string, current: Manifest, candidate: Manifest, reason: Reason) {
    match reason
    case NoReason => Fits(id, current, candidate)
    case CurrentIdMismatch => current.id != id
    case CandidateIdMismatch => current.id == id != candidate.id
    case ModeMismatch => current.id == id == candidate.id && current.mode != candidate.mode
    case NoApiVersion =>
      current.id == id == candidate.id && current.mode == candidate.mode && candidate.apiVersion == ""
    case ApiVersionMismatch =>
      && current.id == id == candidate.id && current.mode == candidate.mode
      && candidate.apiVersion != "" && current.apiVersion != candidate.apiVersion
    case SameVersion =>
      && current.id == id == candidate.id && current.mode == candidate.mode
      && current.apiVersion == candidate.apiVersion != "" && current.version == candidate.version
  }

  /** The head that two manifests call for under a key: on its way to the candidate, or rejected for a reason. */
  predicate CalledFor(key: string, id: string, current: Manifest, candidate: Manifest, h: Head) {
    && h.pluginId == key && h.stable == h.active == Reading(current) && h.candidate == Some(Reading(candidate))
    && WrongFirst(id, current, candidate, h.reason)
    && (h.phase, h.status) == if h.reason.NoReason? then (Candidate, Prepared) else (Phase.Stable, Rejected)
  }

  // ---- Publishing ----

  /** Every version of the head is known. */
  predicate Versioned(h: Head) {
    h.stable.version != "" && h.active.version != "" && (h.candidate.Some? ==> h.candidate.value.version != "")
  }

  /** A head is published, and stored as well when the database takes it and every version of it is known. */
  predicate Publishes(s: RolloutState, t: RolloutState, head: Head, up: bool) {
    && t.heads == s.heads[head.pluginId := head]
    && t.stored == if up && Versioned(head) then s.stored[head.pluginId := head] else s.stored
  }

  /** What saving any head does: it is published as it is under its trimmed id, and stored, with every field trimmed,
      when the database takes it and no version of it is blank; a blank id is not saved at all. */
  lemma PersistExactly(s: RolloutState, h: Head, up: bool)
    ensures var (t, id) := (Persist(s, h, up), TrimSpace(h.pluginId));
            if id == "" then t == s
            else
              && t.heads == s.heads[id := h.(pluginId := id)]
              && if up && !IsBlank(h.stable.version) && !IsBlank(h.active.version)
                    && (h.candidate.Some? ==> !IsBlank(h.candidate.value.version))
                 then
                   && id in t.stored && t.stored == s.stored[id := t.stored[id]] && var kept := t.stored[id];
                   && kept.pluginId == id && Trims(h.stable, kept.stable) && Trims(h.active, kept.active)
                   && (h.candidate.Some? <==> kept.candidate.Some?)
                   && (h.candidate.Some? ==> Trims(h.candidate.value, kept.candidate.value))
                   && kept.phase == h.phase && kept.status == h.status && kept.reason == h.reason
                 else t.stored == s.stored
  {
    TrimSpaceFixes(h.pluginId);
    TrimSpaceFixes(TrimSpace(h.pluginId));
  }

  predicate Trims(s: Snapshot, kept: Snapshot) {
    && kept.version == TrimSpace(s.version) && kept.apiVersion == TrimSpace(s.apiVersion)
    && kept.mode == TrimSpace(s.mode)
  }

  lemma NeatIsPublished(s: RolloutState, head: Head, up: bool)
    requires HeadOk(head.pluginId, head)
    ensures Publishes(s, Persist(s, head, up), head, up)
  {
    assert head.(pluginId := head.pluginId) == head;
    assert Versioned(head) ==> Normalized(head) == head;
    TrimSpaceFixes(head.stable.version);
    TrimSpaceFixes(head.active.version);
    if head.candidate.Some? {
      TrimSpaceFixes(head.candidate.value.version);
    }
  }

  lemma EvaluatesTo(id: string, m: Manifests)
    ensures Evaluate(id, m).Some? <==> m.current(id).Some? && m.candidate(id).Some?
    ensures Evaluate(id, m).Some? ==>
              CalledFor(id, id, m.current(id).value, m.candidate(id).value, Evaluate(id, m).value)
  {
  }

  lemma EvaluatedIsPublished(s: RolloutState, id: string, m: Manifests, up: bool)
    requires Evaluate(id, m).Some? && TrimSpace(id) != ""
    ensures var h := Evaluate(id, m).value.(pluginId := TrimSpace(id));
            Publishes(s, Persist(s, Evaluate(id, m).value, up), h, up)
  {
    var e := Invoke(Prepare, id, m, up);
    EvaluatedOk(e, []);
    TrimSpaceFixes(id);
    TrimSpaceFixes(TrimSpace(id));
    NeatIsPublished(s, Evaluate(id, m).value.(pluginId := TrimSpace(id)), up);
  }

  // ---- Prepare ----

  /** Prepare publishes what the manifests call for, also when it rejects them, and answers with the candidate and the
      version that runs now. Only a blank id is not published. */
  lemma PrepareExactly(s: RolloutState, pluginId: string, m: Manifests, up: bool)
    ensures var ((t, r), key) := (Perform(s, Prepare, pluginId, m, up), TrimSpace(pluginId));
            if m.current(pluginId).None? || m.candidate(pluginId).None? then t == s && r == Err(NoManifest)
            else
              var (current, candidate) := (m.current(pluginId).value, m.candidate(pluginId).value);
              var version := TrimSpace(current.version);
              && r == (if Fits(pluginId, current, candidate)
                       then Ok(Record(key, version, version, version, TrimSpace(candidate.version), Candidate,
                                      Prepared, NoReason))
                       else Err(PreflightRejected))
              && if key == "" then t == s
                 else
                   && key in t.heads && CalledFor(key, pluginId, current, candidate, t.heads[key])
                   && Publishes(s, t, t.heads[key], up)
  {
    EvaluatesTo(pluginId, m);
    if Evaluate(pluginId, m).Some? && TrimSpace(pluginId) != "" {
      EvaluatedIsPublished(s, pluginId, m, up);
    }
  }

  // ---- The other calls ----

  /** The candidate that a head is read with: one without a version is none. */
  function Waiting(h: Head): Option<Snapshot> {
    if h.candidate.Some? && h.candidate.value.version == "" then None else h.candidate
  }

  /** The manifests still are what was prepared. */
  predicate Unmoved(id: string, h: Head, m: Manifests) {
    && m.current(id).Some? && m.candidate(id).Some? && Fits(id, m.current(id).value, m.candidate(id).value)
    && Waiting(h).Some? && TrimSpace(m.current(id).value.version) == h.stable.version
    && TrimSpace(m.candidate(id).value.version) == Waiting(h).value.version
  }

  /** What keeps a call from moving towards the candidate: a head that is not on its way, a missing manifest, or drift,
      which is put right by publishing what the manifests call for now. */
  ghost predicate Blocks(s: RolloutState, t: RolloutState, id: string, h: Head, m: Manifests, up: bool,
                         error: RolloutError) {
    if !h.phase.Candidate? && !h.phase.Canary? then t == s && error == NotPrepared
    else if m.current(id).None? || m.candidate(id).None? then t == s && error == NoManifest
    else
      && !Unmoved(id, h, m) && error == Drifted && id in t.heads
      && CalledFor(id, id, m.current(id).value, m.candidate(id).value, t.heads[id])
      && Publishes(s, t, t.heads[id], up)
  }

  predicate OnItsWay(id: string, h: Head, m: Manifests) {
    (h.phase.Candidate? || h.phase.Canary?) && Unmoved(id, h, m)
  }

  lemma ReadsAs(s: RolloutState, es: seq<Event>, id: string)
    requires Sane(s, es) && TrimSpace(id) == id && id in s.heads
    ensures HeadOf(s, id) == Some(s.heads[id].(candidate := Waiting(s.heads[id])))
  {
    NormalizedOk(id, s.heads[id], es);
  }

  lemma ValidatesExactly(s: RolloutState, es: seq<Event>, id: string, m: Manifests, up: bool)
    requires Sane(s, es) && TrimSpace(id) == id != "" && id in s.heads
    ensures HeadOf(s, id).Some?
    ensures var ((t, r), h) := (Validate(s, id, HeadOf(s, id).value, m, up), s.heads[id]);
            if OnItsWay(id, h, m) then
              && t == s
              && r == Ok(Record(id, h.stable.version, h.stable.version, h.stable.version, Waiting(h).value.version,
                                if h.phase.Canary? then Phase.Canary else Phase.Candidate,
                                if h.phase.Canary? then Canarying else Prepared, NoReason))
            else r.Err? && Blocks(s, t, id, h, m, up, r.error)
  {
    ReadsAs(s, es, id);
    EvaluatesTo(id, m);
    if Evaluate(id, m).Some? {
      EvaluatedIsPublished(s, id, m, up);
      assert Evaluate(id, m).value.(pluginId := id) == Evaluate(id, m).value;
    }
  }

  /** A call under a blank id, or one that no head has, changes nothing. */
  lemma UnknownExactly(s: RolloutState, call: Call, pluginId: string, m: Manifests, up: bool)
    requires !call.Prepare? && TrimSpace(pluginId) !in s.heads
    ensures Perform(s, call, pluginId, m, up) == (s, Err(if IsBlank(pluginId) then NoPluginId else NotFound))
  {
    TrimSpaceFixes(pluginId);
    TrimSpaceFixes(TrimSpace(pluginId));
  }

  /** CanActivate only looks. */
  lemma CanActivateExactly(s: RolloutState, es: seq<Event>, pluginId: string, m: Manifests, up: bool)
    requires Sane(s, es) && TrimSpace(pluginId) in s.heads
    ensures var ((t, r), id) := (Perform(s, CanActivate, pluginId, m, up), TrimSpace(pluginId));
            var h := s.heads[id];
            if OnItsWay(id, h, m) then
              && t == s
              && r == Ok(Record(id, h.stable.version, h.stable.version, h.stable.version, Waiting(h).value.version,
                                if h.phase.Canary? then Phase.Canary else Phase.Candidate,
                                if h.phase.Canary? then Canarying else Prepared, NoReason))
            else r.Err? && Blocks(s, t, id, h, m, up, r.error)
  {
    MovesOn(s, es, CanActivate, pluginId, m, up);
  }

  lemma MovesOn(s: RolloutState, es: seq<Event>, call: Call, pluginId: string, m: Manifests, up: bool)
    requires Sane(s, es) && TrimSpace(pluginId) in s.heads && !call.Prepare?
    ensures var id := TrimSpace(pluginId);
            && TrimSpace(id) == id != "" && HeadOf(s, id) == Some(s.heads[id].(candidate := Waiting(s.heads[id])))
            && Perform(s, call, pluginId, m, up) == Move(s, id, HeadOf(s, id).value, call, m, up)
    ensures var id := TrimSpace(pluginId);
            var ((t, r), h) := (Validate(s, id, HeadOf(s, id).value, m, up), s.heads[id]);
            if OnItsWay(id, h, m) then
              && t == s
              && r == Ok(Record(id, h.stable.version, h.stable.version, h.stable.version, Waiting(h).value.version,
                                if h.phase.Canary? then Phase.Canary else Phase.Candidate,
                                if h.phase.Canary? then Canarying else Prepared, NoReason))
            else r.Err? && Blocks(s, t, id, h, m, up, r.error)
  {
    var id := TrimSpace(pluginId);
    assert HeadOk(id, s.heads[id]);
    ReadsAs(s, es, id);
    ValidatesExactly(s, es, id, m, up);
  }

  /** A head can be rolled back from a canary and after an activation, to its stable version. */
  predicate Reversible(h: Head) {
    h.phase.Canary? || h.status.Activated?
  }

  /** The answer about the way back. */
  function WayBack(id: string, h: Head, reason: Reason): Record {
    var v := h.stable.version;
    Record(id, v, v, v, if Waiting(h).Some? then Waiting(h).value.version else "", Phase.Rollback, RolledBack, reason)
  }

  lemma Records(h: Head)
    requires HeadOk(h.pluginId, h)
    ensures Waiting(h) == h.candidate ==> RollbackRecordOf(h) == WayBack(h.pluginId, h, h.reason)
    ensures h.candidate.Some? && h.candidate.value.version != "" ==>
              && RecordOf(CanaryHead(h))
              == Record(h.pluginId, h.stable.version, h.candidate.value.version, h.candidate.value.version,
                        h.candidate.value.version, Phase.Canary, Canarying, NoReason)
              && RecordOf(ActivatedHead(h))
              == Record(h.pluginId, h.candidate.value.version, h.candidate.value.version, h.candidate.value.version, "",
                        Phase.Stable, Activated, NoReason)
  {
  }

  /** Activate makes the candidate that the head holds both stable and active. */
  lemma ActivateExactly(s: RolloutState, es: seq<Event>, pluginId: string, m: Manifests, up: bool)
    requires Sane(s, es) && TrimSpace(pluginId) in s.heads
    ensures var ((t, r), id) := (Perform(s, Activate, pluginId, m, up), TrimSpace(pluginId));
            var h := s.heads[id];
            if OnItsWay(id, h, m) then
              var next := Waiting(h).value;
              && r == Ok(Record(id, next.version, next.version, next.version, "", Phase.Stable, Activated, NoReason))
              && Publishes(s, t, Head(id, next, next, None, Phase.Stable, Activated, NoReason), up)
            else r.Err? && Blocks(s, t, id, h, m, up, r.error)
  {
    var id := TrimSpace(pluginId);
    MovesOn(s, es, Activate, pluginId, m, up);
    HeadIsOk(s, es, id);
    Records(HeadOf(s, TrimSpace(pluginId)).value);
    if OnItsWay(id, s.heads[id], m) {
      MovedOk(id, HeadOf(s, id).value, es);
      NeatIsPublished(s, ActivatedHead(HeadOf(s, id).value), up);
    }
  }

  /** A canary makes the candidate active and keeps the stable version; it starts from the candidate phase only. */
  lemma StartCanaryExactly(s: RolloutState, es: seq<Event>, pluginId: string, m: Manifests, up: bool)
    requires Sane(s, es) && TrimSpace(pluginId) in s.heads
    ensures var ((t, r), id) := (Perform(s, StartCanary, pluginId, m, up), TrimSpace(pluginId));
            var h := s.heads[id];
            if !OnItsWay(id, h, m) then r.Err? && Blocks(s, t, id, h, m, up, r.error)
            else if h.phase.Canary? then t == s && r == Err(WrongPhase)
            else
              var next := Waiting(h).value;
              && r == Ok(Record(id, h.stable.version, next.version, next.version, next.version, Phase.Canary, Canarying,
                                NoReason))
              && Publishes(s, t, Head(id, h.stable, next, Some(next), Phase.Canary, Canarying, NoReason), up)
  {
    var id := TrimSpace(pluginId);
    MovesOn(s, es, StartCanary, pluginId, m, up);
    HeadIsOk(s, es, id);
    Records(HeadOf(s, TrimSpace(pluginId)).value);
    if OnItsWay(id, s.heads[id], m) && s.heads[id].phase.Candidate? {
      MovedOk(id, HeadOf(s, id).value, es);
      NeatIsPublished(s, CanaryHead(HeadOf(s, id).value), up);
    }
  }

  /** The two calls on the head as it was read. */
  lemma ReversesHead(s: RolloutState, id: string, h: Head, m: Manifests, up: bool)
    requires HeadOk(id, h) && Waiting(h) == h.candidate
    ensures Move(s, id, h, CanRollback, m, up)
         == (s, if Reversible(h) then Ok(WayBack(id, h, h.reason)) else Err(WrongPhase))
    ensures var (t, r) := Move(s, id, h, RollBack, m, up);
            if Reversible(h) then r == Ok(WayBack(id, h, NoReason)) && t == Persist(s, RolledBackHead(h), up)
            else r == Err(WrongPhase) && t == s
  {
    MovedOk(id, h.(phase := Stable, status := RolledBack, active := h.stable), []);
    Records(h);
    Records(RolledBackHead(h));
  }

  /** CanRollback only looks. */
  lemma CanRollbackExactly(s: RolloutState, es: seq<Event>, pluginId: string, m: Manifests, up: bool)
    requires Sane(s, es) && TrimSpace(pluginId) in s.heads
    ensures var (id, h) := (TrimSpace(pluginId), s.heads[TrimSpace(pluginId)]);
            Perform(s, CanRollback, pluginId, m, up)
            == (s, if Reversible(h) then Ok(WayBack(id, h, h.reason)) else Err(WrongPhase))
  {
    var h := s.heads[TrimSpace(pluginId)];
    MovesOn(s, es, CanRollback, pluginId, m, up);
    assert HeadOk(TrimSpace(pluginId), h);
    ReversesHead(s, TrimSpace(pluginId), h.(candidate := Waiting(h)), m, up);
  }

  /** Rolling back makes the stable version active and keeps the candidate. */
  lemma RollBackExactly(s: RolloutState, es: seq<Event>, pluginId: string, m: Manifests, up: bool)
    requires Sane(s, es) && TrimSpace(pluginId) in s.heads
    ensures var ((t, r), id) := (Perform(s, RollBack, pluginId, m, up), TrimSpace(pluginId));
            var h := s.heads[id];
            if Reversible(h) then
              && r == Ok(WayBack(id, h, NoReason))
              && Publishes(s, t, Head(id, h.stable, h.stable, Waiting(h), Phase.Stable, RolledBack, NoReason), up)
            else r == Err(WrongPhase) && t == s
  {
    var (id, h) := (TrimSpace(pluginId), s.heads[TrimSpace(pluginId)]);
    MovesOn(s, es, RollBack, pluginId, m, up);
    assert HeadOk(id, h);
    ReversesHead(s, id, h.(candidate := Waiting(h)), m, up);
    NeatIsPublished(s, Head(id, h.stable, h.stable, Waiting(h), Phase.Stable, RolledBack, NoReason), up);
  }

  /** A restart reads back what was stored: a head that was saved is there again just as it was. */
  lemma RestartExactly(s: RolloutState, es: seq<Event>, id: string)
    requires Sane(s, es)
    ensures id in Restart(s).heads <==> id in s.stored
    ensures id in s.stored ==>
              Restart(s).heads[id] == s.stored[id].(candidate := Waiting(s.stored[id]))
  {
    if id in s.stored {
      NormalizedOk(id, s.stored[id], es);
    }
  }
}
