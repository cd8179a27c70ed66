/** Rollout heads, manifest checks and the moves between phases
    (packages/runtime-core/rollout.go, packages/plugin-sdk/rollout.go). */
module RolloutSpec {
  import opened Base

  datatype Manifest = Manifest(id: string, version: string, apiVersion: string, mode: string)

  /** The two manifest readers as one call finds them. */
  datatype Manifests = Manifests(current: string -> Option<Manifest>, candidate: string -> Option<Manifest>)

  datatype Snapshot = Snapshot(version: string, apiVersion: string, mode: string)

  datatype Phase = Stable | Candidate | Canary | Rollback

  datatype Status = Prepared | Rejected | Canarying | Activated | RolledBack

  datatype Reason =
    | NoReason | CurrentIdMismatch | CandidateIdMismatch | ModeMismatch | NoApiVersion | ApiVersionMismatch
    | SameVersion

  datatype Head = Head(
    pluginId: string,
    stable: Snapshot,
    active: Snapshot,
    candidate: Option<Snapshot>,
    phase: Phase,
    status: Status,
    reason: Reason)

  datatype Record = Record(
    pluginId: string,
    stableVersion: string,
    activeVersion: string,
    currentVersion: string,
    candidateVersion: string,
    phase: Phase,
    status: Status,
    reason: Reason)

  datatype RolloutError = NoPluginId | NotFound | NoManifest | PreflightRejected | NotPrepared | Drifted | WrongPhase

  function SnapshotOf(m: Manifest): Snapshot {
    Snapshot(TrimSpace(m.version), TrimSpace(m.apiVersion), TrimSpace(m.mode))
  }

  function NormalizedSnapshot(s: Snapshot): Snapshot {
    Snapshot(TrimSpace(s.version), TrimSpace(s.apiVersion), TrimSpace(s.mode))
  }

  /** A head as it is read: trimmed, and without a candidate that has no version. */
  function Normalized(h: Head): Head {
    h.(pluginId := TrimSpace(h.pluginId), stable := NormalizedSnapshot(h.stable),
       active := NormalizedSnapshot(h.active),
       candidate := if h.candidate.None? || IsBlank(h.candidate.value.version) then None
                    else Some(NormalizedSnapshot(h.candidate.value)))
  }

  /** The record of a head whose snapshots are trimmed, as every head is that was read or evaluated. */
  function RecordOf(h: Head): Record {
    var current := if h.active.version == "" then h.stable.version else h.active.version;
    var candidate := if h.candidate.Some? then h.candidate.value.version else "";
    Record(TrimSpace(h.pluginId), h.stable.version, current, current, candidate, h.phase, h.status, h.reason)
  }

  function RollbackRecordOf(head: Head): Record {
    RecordOf(head).(phase := Rollback, status := RolledBack, currentVersion := head.stable.version,
                    activeVersion := head.stable.version)
  }

  // ---- Manifest checks ----

  /** The preflight verdict on a pair of manifests, in the order of the checks. */
  function Verdict(pluginId: string, current: Manifest, candidate: Manifest): Reason {
    if current.id != pluginId then CurrentIdMismatch
    else if candidate.id != pluginId then CandidateIdMismatch
    else if current.mode != candidate.mode then ModeMismatch
    else if candidate.apiVersion == "" then NoApiVersion
    else if current.apiVersion != candidate.apiVersion then ApiVersionMismatch
    else if current.version == candidate.version then SameVersion
    else NoReason
  }

  /** The head that the manifests call for, or none when one of them cannot be read. */
  function Evaluate(pluginId: string, m: Manifests): Option<Head> {
    var current, candidate := m.current(pluginId), m.candidate(pluginId);
    if current.None? || candidate.None? then None else
    var reason := Verdict(pluginId, current.value, candidate.value);
    var (phase, status) := if reason.NoReason? then (Candidate, Prepared) else (Stable, Rejected);
    Some(Head(pluginId, SnapshotOf(current.value), SnapshotOf(current.value), Some(SnapshotOf(candidate.value)), phase,
              status, reason))
  }

  /** The record of an evaluation keeps the candidate phase even when it was rejected. */
  function EvaluatedRecord(head: Head): Record {
    RecordOf(head).(phase := Candidate)
  }

  // ---- Heads in memory and in the store ----

  datatype RolloutState = RolloutState(heads: map<string, Head>, stored: map<string, Head>)

  predicate Savable(h: Head) {
    && !IsBlank(h.pluginId) && !IsBlank(h.stable.version) && !IsBlank(h.active.version)
    && (h.candidate.Some? ==> !IsBlank(h.candidate.value.version))
  }

  /** The head is published whether or not the store took it. */
  function Persist(s: RolloutState, head: Head, up: bool): RolloutState {
    var id := TrimSpace(head.pluginId);
    if id == "" then s else
    var named := head.(pluginId := id);
    RolloutState(s.heads[id := named], if up && Savable(named) then s.stored[id := Normalized(named)] else s.stored)
  }

  function HeadOf(s: RolloutState, pluginId: string): Option<Head> {
    if TrimSpace(pluginId) in s.heads then Some(Normalized(s.heads[TrimSpace(pluginId)])) else None
  }

  function Restart(s: RolloutState): RolloutState {
    RolloutState(map id | id in s.stored :: Normalized(s.stored[id]), s.stored)
  }

  // ---- Calls ----

  datatype Call = Prepare | CanActivate | Activate | StartCanary | CanRollback | RollBack

  type Reply = Result<Record, RolloutError>

  function PrepareCall(s: RolloutState, pluginId: string, m: Manifests, up: bool): (RolloutState, Reply) {
    match Evaluate(pluginId, m)
    case None => (s, Err(NoManifest))
    case Some(head) =>
      (Persist(s, head, up), if head.status.Rejected? then Err(PreflightRejected) else Ok(EvaluatedRecord(head)))
  }

  /** Whether the manifests still call for what was prepared. */
  predicate StillPrepared(head: Head, now: Head) {
    && now.status.Prepared? && now.candidate.Some? && head.candidate.Some?
    && now.stable.version == head.stable.version && now.candidate.value.version == head.candidate.value.version
  }

  /** The check before every move towards the candidate. A drifted head is replaced by what the manifests call for. */
  function Validate(s: RolloutState, id: string, head: Head, m: Manifests, up: bool): (RolloutState, Reply) {
    if !head.phase.Candidate? && !head.phase.Canary? then (s, Err(NotPrepared)) else
    match Evaluate(id, m)
    case None => (s, Err(NoManifest))
    case Some(now) =>
      if !StillPrepared(head, now) then (Persist(s, now, up), Err(Drifted)) else
      var record := EvaluatedRecord(now);
      (s, Ok(if head.phase.Canary? then record.(phase := Canary, status := Canarying) else record))
  }

  predicate CanRollBack(head: Head) {
    head.phase.Canary? || head.status.Activated?
  }

  function ActivatedHead(head: Head): Head
    requires head.candidate.Some?
  {
    head.(phase := Stable, status := Activated, reason := NoReason, stable := head.candidate.value,
          active := head.candidate.value, candidate := None)
  }

  function CanaryHead(head: Head): Head
    requires head.candidate.Some?
  {
    head.(phase := Canary, status := Canarying, reason := NoReason, active := head.candidate.value)
  }

  function RolledBackHead(head: Head): Head {
    head.(phase := Stable, status := RolledBack, reason := NoReason, active := head.stable)
  }

  /** A call on the head that `id` has. */
  function Move(s: RolloutState, id: string, head: Head, call: Call, m: Manifests, up: bool): (RolloutState, Reply) {
    var (checkedState, checked) := Validate(s, id, head, m, up);
    match call
    case Prepare => PrepareCall(s, id, m, up)
    case CanActivate => (checkedState, checked)
    case Activate =>
      if checked.Err? then (checkedState, checked)
      else (Persist(s, ActivatedHead(head), up), Ok(RecordOf(ActivatedHead(head))))
    case StartCanary =>
      if checked.Err? then (checkedState, checked)
      else if !head.phase.Candidate? then (s, Err(WrongPhase))
      else (Persist(s, CanaryHead(head), up), Ok(RecordOf(CanaryHead(head))))
    case CanRollback => (s, if CanRollBack(head) then Ok(RollbackRecordOf(head)) else Err(WrongPhase))
    case RollBack =>
      if !CanRollBack(head) then (s, Err(WrongPhase))
      else (Persist(s, RolledBackHead(head), up), Ok(RollbackRecordOf(RolledBackHead(head))))
  }

  function Perform(s: RolloutState, call: Call, pluginId: string, m: Manifests, up: bool): (RolloutState, Reply) {
    if call.Prepare? then PrepareCall(s, pluginId, m, up) else
    var id := TrimSpace(pluginId);
    if id == "" then (s, Err(NoPluginId)) else
    match HeadOf(s, id)
    case None => (s, Err(NotFound))
    case Some(head) => Move(s, id, head, call, m, up)
  }
}
