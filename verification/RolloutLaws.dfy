/** What rollouts keep over whole histories, and what one call promises the next. */
module RolloutLaws {
  import opened Base
  import opened RolloutSpec

  datatype Event = Invoke(call: Call, pluginId: string, m: Manifests, up: bool) | Reboot

  function Step(s: RolloutState, e: Event): RolloutState {
    match e
    case Invoke(call, pluginId, m, up) => Perform(s, call, pluginId, m, up).0
    case Reboot => Restart(s)
  }

  function Run(s: RolloutState, es: seq<Event>): RolloutState {
    if es == [] then s else Step(Run(s, es[..|es| - 1]), es[|es| - 1])
  }

  const GENESIS := RolloutState(map[], map[])

  // ---- Heads ----

  predicate Neat(s: Snapshot) {
    NormalizedSnapshot(s) == s
  }

  /** The phase says which version is active. */
  predicate HeadOk(key: string, h: Head) {
    && h.pluginId == key && TrimSpace(key) == key != ""
    && Neat(h.stable) && Neat(h.active) && (h.candidate.Some? ==> Neat(h.candidate.value))
    && match h.phase
       case Canary => h.status == Canarying && h.candidate == Some(h.active) && h.active.version != ""
       case Candidate => h.status == Prepared && h.active == h.stable
       case Stable => h.status in {Rejected, Activated, RolledBack} && h.active == h.stable
       case Rollback => false
  }

  /** The manifests that a call looked at. */
  function Examined(e: Event): Option<Head> {
    match e
    case Invoke(call, pluginId, m, _) => Evaluate(if call.Prepare? then pluginId else TrimSpace(pluginId), m)
    case Reboot => None
  }

  /** A call on this plugin found manifests that pass every check and have these snapshots. */
  predicate Vouches(e: Event, key: string, h: Head) {
    && e.Invoke? && TrimSpace(e.pluginId) == key
    && Examined(e).Some? && Examined(e).value.status.Prepared?
    && Examined(e).value.stable == h.stable && Examined(e).value.candidate == h.candidate
  }

  predicate Vouched(es: seq<Event>, key: string, h: Head) {
    exists k :: 0 <= k < |es| && Vouches(es[k], key, h)
  }

  /** A head on its way to a candidate with a version was vouched for. */
  predicate Backed(es: seq<Event>, key: string, h: Head) {
    (h.phase.Candidate? || h.phase.Canary?) && h.candidate.Some? && h.candidate.value.version != "" ==>
      Vouched(es, key, h)
  }

  ghost predicate Sane(s: RolloutState, es: seq<Event>) {
    && (forall key :: key in s.heads ==> HeadOk(key, s.heads[key]) && Backed(es, key, s.heads[key]))
    && (forall key :: key in s.stored ==> HeadOk(key, s.stored[key]) && Backed(es, key, s.stored[key]))
  }

  lemma NeatSnapshot(m: Manifest)
    ensures Neat(SnapshotOf(m))
  {
    TrimSpaceFixes(m.version);
    TrimSpaceFixes(m.apiVersion);
    TrimSpaceFixes(m.mode);
    TrimSpaceFixes(TrimSpace(m.version));
    TrimSpaceFixes(TrimSpace(m.apiVersion));
    TrimSpaceFixes(TrimSpace(m.mode));
  }

  lemma NormalizedOk(key: string, h: Head, es: seq<Event>)
    requires HeadOk(key, h) && Backed(es, key, h)
    ensures HeadOk(key, Normalized(h)) && Backed(es, key, Normalized(h))
    ensures Normalized(h) == if h.candidate.Some? && h.candidate.value.version == "" then h.(candidate := None) else h
  {
    assert h.candidate.Some? ==> h.candidate.value == NormalizedSnapshot(h.candidate.value);
  }

  lemma BackedLater(es: seq<Event>, e: Event, key: string, h: Head)
    requires Backed(es, key, h)
    ensures Backed(es + [e], key, h)
  {
    if Vouched(es, key, h) {
      var k :| 0 <= k < |es| && Vouches(es[k], key, h);
      assert Vouches((es + [e])[k], key, h);
    }
  }

  lemma EvaluatedOk(e: Event, es: seq<Event>)
    requires e.Invoke? && Examined(e).Some? && TrimSpace(e.pluginId) != ""
    ensures var h := Examined(e).value.(pluginId := TrimSpace(e.pluginId));
            HeadOk(TrimSpace(e.pluginId), h) && Backed(es + [e], TrimSpace(e.pluginId), h)
            && TrimSpace(Examined(e).value.pluginId) == TrimSpace(e.pluginId)
  {
    var id := if e.call.Prepare? then e.pluginId else TrimSpace(e.pluginId);
    var h := Examined(e).value.(pluginId := TrimSpace(e.pluginId));
    NeatSnapshot(e.m.current(id).value);
    NeatSnapshot(e.m.candidate(id).value);
    TrimSpaceFixes(e.pluginId);
    TrimSpaceFixes(TrimSpace(e.pluginId));
    assert (es + [e])[|es|] == e;
    assert Examined(e).value.status.Prepared? ==> Vouches(e, TrimSpace(e.pluginId), h);
  }

  lemma PersistSane(s: RolloutState, es: seq<Event>, head: Head, up: bool)
    requires Sane(s, es) && HeadOk(head.pluginId, head) && Backed(es, head.pluginId, head)
    ensures Sane(Persist(s, head, up), es)
    ensures Persist(s, head, up).heads == s.heads[head.pluginId := head]
  {
    NormalizedOk(head.pluginId, head, es);
    assert head.(pluginId := head.pluginId) == head;
  }

  lemma SaneLater(s: RolloutState, es: seq<Event>, e: Event)
    requires Sane(s, es)
    ensures Sane(s, es + [e])
  {
    forall key | key in s.heads ensures Backed(es + [e], key, s.heads[key]) {
      BackedLater(es, e, key, s.heads[key]);
    }
    forall key | key in s.stored ensures Backed(es + [e], key, s.stored[key]) {
      BackedLater(es, e, key, s.stored[key]);
    }
  }

  lemma HeadIsOk(s: RolloutState, es: seq<Event>, id: string)
    requires Sane(s, es) && HeadOf(s, id).Some?
    ensures HeadOk(TrimSpace(id), HeadOf(s, id).value) && Backed(es, TrimSpace(id), HeadOf(s, id).value)
    ensures HeadOf(s, id).value.candidate.Some? ==> HeadOf(s, id).value.candidate.value.version != ""
  {
    NormalizedOk(TrimSpace(id), s.heads[TrimSpace(id)], es);
  }

  lemma EvaluationSane(s: RolloutState, es: seq<Event>, e: Event)
    requires Sane(s, es) && e.Invoke? && Examined(e).Some?
    ensures Sane(Persist(s, Examined(e).value, e.up), es + [e])
  {
    SaneLater(s, es, e);
    if TrimSpace(e.pluginId) != "" {
      EvaluatedOk(e, es);
      PersistSane(s, es + [e], Examined(e).value.(pluginId := TrimSpace(e.pluginId)), e.up);
    } else {
      TrimSpaceFixes(e.pluginId);
    }
  }

  lemma MovedOk(key: string, h: Head, es: seq<Event>)
    requires HeadOk(key, h) && Backed(es, key, h)
    ensures HeadOk(key, RolledBackHead(h)) && Backed(es, key, RolledBackHead(h))
    ensures h.candidate.Some? ==> HeadOk(key, ActivatedHead(h)) && Backed(es, key, ActivatedHead(h))
    ensures h.candidate.Some? && h.candidate.value.version != "" && h.phase.Candidate? ==>
            HeadOk(key, CanaryHead(h)) && Backed(es, key, CanaryHead(h))
  {
    if h.candidate.Some? && h.candidate.value.version != "" && h.phase.Candidate? && Vouched(es, key, h) {
      var k :| 0 <= k < |es| && Vouches(es[k], key, h);
      assert Vouches(es[k], key, CanaryHead(h));
    }
  }

  lemma ValidateSane(s: RolloutState, es: seq<Event>, e: Event)
    requires Sane(s, es) && e.Invoke? && !e.call.Prepare? && HeadOf(s, TrimSpace(e.pluginId)).Some?
    ensures Sane(Validate(s, TrimSpace(e.pluginId), HeadOf(s, TrimSpace(e.pluginId)).value, e.m, e.up).0, es + [e])
  {
    SaneLater(s, es, e);
    if Examined(e).Some? {
      EvaluationSane(s, es, e);
    }
  }

  lemma MoveSane(s: RolloutState, es: seq<Event>, id: string, head: Head, call: Call, m: Manifests, up: bool)
    requires Sane(s, es) && HeadOk(id, head) && Backed(es, id, head) && !call.Prepare?
    requires head.candidate.Some? ==> head.candidate.value.version != ""
    requires Sane(Validate(s, id, head, m, up).0, es)
    ensures Sane(Move(s, id, head, call, m, up).0, es)
  {
    MovedOk(id, head, es);
    if call.RollBack? {
      PersistSane(s, es, RolledBackHead(head), up);
    } else if head.candidate.Some? && call.Activate? {
      PersistSane(s, es, ActivatedHead(head), up);
    } else if head.candidate.Some? && head.phase.Candidate? && call.StartCanary? {
      PersistSane(s, es, CanaryHead(head), up);
    }
  }

  lemma RestartSane(s: RolloutState, es: seq<Event>)
    requires Sane(s, es)
    ensures Sane(Restart(s), es)
  {
    forall key | key in s.stored
      ensures HeadOk(key, Normalized(s.stored[key])) && Backed(es, key, Normalized(s.stored[key])) {
      NormalizedOk(key, s.stored[key], es);
    }
  }

  lemma StepSane(s: RolloutState, es: seq<Event>, e: Event)
    requires Sane(s, es)
    ensures Sane(Step(s, e), es + [e])
  {
    SaneLater(s, es, e);
    match e
    case Invoke(call, pluginId, m, up) =>
      if call.Prepare? {
        if Examined(e).Some? { EvaluationSane(s, es, e); }
      } else if TrimSpace(pluginId) != "" && HeadOf(s, TrimSpace(pluginId)).Some? {
        var id := TrimSpace(pluginId);
        TrimSpaceFixes(pluginId);
        TrimSpaceFixes(id);
        ValidateSane(s, es, e);
        HeadIsOk(s, es + [e], id);
        MoveSane(s, es + [e], id, HeadOf(s, id).value, call, m, up);
      }
    case Reboot => RestartSane(s, es + [e]);
  }

  lemma {:induction false} RunSane(es: seq<Event>)
    ensures Sane(Run(GENESIS, es), es)
    decreases |es|
  {
    if es != [] {
      var (front, last) := (es[..|es| - 1], es[|es| - 1]);
      RunSane(front);
      StepSane(Run(GENESIS, front), front, last);
      assert front + [last] == es;
    }
  }

  /** After any history, including failed saves and restarts, the phase of a head fixes its status and its active
      version. */
  lemma ReachableHead(es: seq<Event>, id: string)
    requires HeadOf(Run(GENESIS, es), id).Some?
    ensures var h := HeadOf(Run(GENESIS, es), id).value;
            && (h.phase.Canary? ==> h.status == Canarying && h.candidate == Some(h.active))
            && (h.phase.Candidate? ==> h.status == Prepared && h.active == h.stable)
            && (h.phase.Stable? ==> h.active == h.stable)
            && !h.phase.Rollback?
  {
    RunSane(es);
    HeadIsOk(Run(GENESIS, es), es, id);
  }

  // ---- What Prepare accepts ----

  /** Prepare succeeds exactly when both manifests are this plugin's, agree on mode and on an API version, and differ in
      version; it then publishes both as they are. */
  lemma PreparesExactly(s: RolloutState, id: string, m: Manifests, up: bool)
    requires TrimSpace(id) == id != ""
    ensures var (t, r) := Perform(s, Prepare, id, m, up);
            r.Ok? <==>
              && m.current(id).Some? && m.candidate(id).Some?
              && var (current, candidate) := (m.current(id).value, m.candidate(id).value);
              && current.id == id == candidate.id && current.mode == candidate.mode
              && current.apiVersion == candidate.apiVersion != "" && current.version != candidate.version
    ensures var (t, r) := Perform(s, Prepare, id, m, up);
            r.Ok? ==>
              && HeadOf(t, id).Some? && var h := HeadOf(t, id).value;
              && h.phase == Candidate && h.stable == h.active == SnapshotOf(m.current(id).value)
              && h.candidate == if IsBlank(m.candidate(id).value.version) then None
                 else Some(SnapshotOf(m.candidate(id).value))
  {
    if Perform(s, Prepare, id, m, up).1.Ok? {
      EvaluatedHead(s, id, m, up);
    }
  }

  // ---- What Activate installs ----

  /** Activate succeeds exactly when a head waits for a versioned candidate and the manifests still pass every
      check with the same two versions. */
  lemma ActivatesExactly(s: RolloutState, id: string, m: Manifests, up: bool)
    requires TrimSpace(id) == id != ""
    ensures Perform(s, Activate, id, m, up).1.Ok? <==>
              && HeadOf(s, id).Some? && var h := HeadOf(s, id).value;
              && (h.phase.Candidate? || h.phase.Canary?) && h.candidate.Some?
              && m.current(id).Some? && m.candidate(id).Some?
              && Verdict(id, m.current(id).value, m.candidate(id).value).NoReason?
              && TrimSpace(m.current(id).value.version) == h.stable.version
              && TrimSpace(m.candidate(id).value.version) == h.candidate.value.version
  {
  }

  /** A head on its way to a candidate goes back to a call that found both manifests in order. */
  lemma VouchingCall(es: seq<Event>, id: string) returns (k: nat)
    requires TrimSpace(id) == id && HeadOf(Run(GENESIS, es), id).Some?
    requires var h := HeadOf(Run(GENESIS, es), id).value; (h.phase.Candidate? || h.phase.Canary?) && h.candidate.Some?
    ensures k < |es| && Vouches(es[k], id, HeadOf(Run(GENESIS, es), id).value)
    ensures HeadOf(Run(GENESIS, es), id).value.candidate.value.version != ""
  {
    RunSane(es);
    HeadIsOk(Run(GENESIS, es), es, id);
    var head := HeadOf(Run(GENESIS, es), id).value;
    assert Vouched(es, id, head);
    k :| 0 <= k < |es| && Vouches(es[k], id, head);
  }

  /** How the activated head reads. */
  lemma ActivatedReads(s: RolloutState, es: seq<Event>, id: string, up: bool)
    requires Sane(s, es) && TrimSpace(id) == id && HeadOf(s, id).Some? && HeadOf(s, id).value.candidate.Some?
    ensures var h := HeadOf(s, id).value; HeadOf(Persist(s, ActivatedHead(h), up), id) == Some(ActivatedHead(h))
  {
    HeadIsOk(s, es, id);
    MovedOk(id, HeadOf(s, id).value, es);
    PublishedHead(s, id, ActivatedHead(HeadOf(s, id).value), up);
  }

  /** What Activate installs is the candidate that the head held before the call, which an earlier call had vouched for.
      It is the candidate manifest of now exactly when the head held the API version and the mode of that manifest. */
  lemma ActivateInstalls(es: seq<Event>, id: string, m: Manifests, up: bool) returns (k: nat)
    requires TrimSpace(id) == id != "" && Perform(Run(GENESIS, es), Activate, id, m, up).1.Ok?
    ensures k < |es| && Examined(es[k]).Some? && Examined(es[k]).value.status.Prepared?
    ensures m.candidate(id).Some? && HeadOf(Run(GENESIS, es), id).Some?
    ensures var s := Run(GENESIS, es);
            var (held, after) := (HeadOf(s, id).value.candidate, HeadOf(Perform(s, Activate, id, m, up).0, id));
            var manifest := m.candidate(id).value;
            && held.Some? && held == Examined(es[k]).value.candidate
            && held.value.version == TrimSpace(manifest.version) != ""
            && after.Some? && after.value.phase == Stable && after.value.status == Activated
            && after.value.candidate == None
            && after.value.stable == after.value.active == held.value
            && (after.value.active == SnapshotOf(manifest) <==>
                  held.value.apiVersion == TrimSpace(manifest.apiVersion)
                    && held.value.mode == TrimSpace(manifest.mode))
  {
    ActivatesExactly(Run(GENESIS, es), id, m, up);
    k := VouchingCall(es, id);
    RunSane(es);
    ActivatedReads(Run(GENESIS, es), es, id, up);
  }

  function Shipped(api: string): Manifests {
    Manifests(id => Some(Manifest(id, "1", api, "m")), id => Some(Manifest(id, "2", api, "m")))
  }

  lemma ShippedHead(id: string, api: string)
    requires Trimmed(api) && TrimSpace(id) == id != ""
    ensures var (fine, current) := (api != "", Snapshot("1", api, "m"));
            Evaluate(id, Shipped(api))
            == Some(Head(id, current, current, Some(Snapshot("2", api, "m")), if fine then Candidate else Stable,
                         if fine then Prepared else Rejected, if fine then NoReason else NoApiVersion))
  {
    TrimSpaceFixes("1");
    TrimSpaceFixes("2");
    TrimSpaceFixes("m");
    TrimSpaceFixes(api);
  }

  lemma OneEvent(e: Event)
    ensures Run(GENESIS, [e]) == Step(GENESIS, e)
  {
    assert [e][..|[e]| - 1] == [];
    assert Run(GENESIS, []) == GENESIS;
  }

  lemma PreparedShipped(id: string, api: string)
    requires Trimmed(api) && api != "" && TrimSpace(id) == id != ""
    ensures HeadOf(Run(GENESIS, [Invoke(Prepare, id, Shipped(api), true)]), id) == Evaluate(id, Shipped(api))
  {
    OneEvent(Invoke(Prepare, id, Shipped(api), true));
    ShippedHead(id, api);
    EvaluatedHead(GENESIS, id, Shipped(api), true);
  }

  /** Both manifests may move to another API version between Prepare and Activate: the old one is installed. */
  lemma StaleApiVersion(id: string, api: string, later: string)
    requires TrimSpace(id) == id != "" && Trimmed(api) && Trimmed(later) && api != "" && later != ""
    ensures var s := Run(GENESIS, [Invoke(Prepare, id, Shipped(api), true)]);
            var (t, r) := Perform(s, Activate, id, Shipped(later), true);
            r.Ok? && HeadOf(t, id).Some? && HeadOf(t, id).value.active == Snapshot("2", api, "m")
  {
    var es := [Invoke(Prepare, id, Shipped(api), true)];
    PreparedShipped(id, api);
    ShippedHead(id, api);
    ShippedHead(id, later);
    TrimSpaceFixes("1");
    TrimSpaceFixes("2");
    ActivatesExactly(Run(GENESIS, es), id, Shipped(later), true);
    RunSane(es);
    ActivatedReads(Run(GENESIS, es), es, id, true);
  }

  // ---- What one call promises the next ----

  lemma ValidatedKeeps(s: RolloutState, id: string, head: Head, m: Manifests, up: bool)
    ensures Validate(s, id, head, m, up).1.Ok? ==> Validate(s, id, head, m, up).0 == s
  {
  }

  /** A successful CanActivate changes nothing, and Activate succeeds exactly when it does while the manifests stay the
      same. */
  lemma CanActivateThenActivate(s: RolloutState, id: string, m: Manifests, up: bool)
    ensures Perform(s, CanActivate, id, m, up).1.Ok? ==> Perform(s, CanActivate, id, m, up).0 == s
    ensures Perform(s, Activate, id, m, up).1.Ok? <==> Perform(s, CanActivate, id, m, up).1.Ok?
  {
    var key := TrimSpace(id);
    if HeadOf(s, key).Some? {
      ValidatedKeeps(s, key, HeadOf(s, key).value, m, up);
    }
  }

  lemma PublishedHead(s: RolloutState, key: string, head: Head, up: bool)
    requires HeadOk(key, head) && (head.candidate.Some? ==> head.candidate.value.version != "")
    ensures HeadOf(Persist(s, head, up), key) == Some(head)
  {
    NormalizedOk(key, head.(phase := Stable, status := RolledBack, active := head.stable), []);
    assert head.(pluginId := key) == head;
    assert Normalized(head) == head;
  }

  lemma StartCanaryIs(s: RolloutState, id: string, m: Manifests, up: bool)
    requires TrimSpace(id) == id && Perform(s, StartCanary, id, m, up).1.Ok?
    ensures HeadOf(s, id).Some? && var h := HeadOf(s, id).value;
            h.phase == Candidate && h.candidate.Some?
              && Perform(s, StartCanary, id, m, up).0 == Persist(s, CanaryHead(h), up)
  {
  }

  lemma CanaryHeadReads(s: RolloutState, es: seq<Event>, id: string, up: bool)
    requires Sane(s, es) && TrimSpace(id) == id && HeadOf(s, id).Some?
    requires HeadOf(s, id).value.phase == Candidate && HeadOf(s, id).value.candidate.Some?
    ensures var h := CanaryHead(HeadOf(s, id).value);
            HeadOk(id, h) && h.candidate.value.version != "" && HeadOf(Persist(s, h, up), id) == Some(h)
  {
    HeadIsOk(s, es, id);
    MovedOk(id, HeadOf(s, id).value, es);
    PublishedHead(s, id, CanaryHead(HeadOf(s, id).value), up);
  }

  lemma RollBackIs(s: RolloutState, id: string, m: Manifests, up: bool)
    requires HeadOf(s, id).Some? && HeadOk(id, HeadOf(s, id).value) && CanRollBack(HeadOf(s, id).value)
    requires HeadOf(s, id).value.candidate.Some? ==> HeadOf(s, id).value.candidate.value.version != ""
    ensures var h := HeadOf(s, id).value; var (t, r) := Perform(s, RollBack, id, m, up);
            r.Ok? && r.value.activeVersion == h.stable.version && HeadOf(t, id) == Some(RolledBackHead(h))
  {
    PublishedHead(s, id, RolledBackHead(HeadOf(s, id).value), up);
  }

  /** Canary and then Rollback makes the prepared stable version active again, whatever the manifests say by then. */
  lemma CanaryThenRollBack(es: seq<Event>, id: string, m: Manifests, m': Manifests, up: bool, up': bool)
    requires TrimSpace(id) == id && Perform(Run(GENESIS, es), StartCanary, id, m, up).1.Ok?
    ensures HeadOf(Run(GENESIS, es), id).Some?
    ensures var s, before := Run(GENESIS, es), HeadOf(Run(GENESIS, es), id).value;
            var t := Perform(s, StartCanary, id, m, up).0; var (u, r) := Perform(t, RollBack, id, m', up');
            && HeadOf(t, id).Some? && Some(HeadOf(t, id).value.active) == before.candidate
            && r.Ok? && r.value.activeVersion == before.active.version
            && HeadOf(u, id) == Some(before.(phase := Stable, status := RolledBack, reason := NoReason))
  {
    var s := Run(GENESIS, es);
    RunSane(es);
    StartCanaryIs(s, id, m, up);
    CanaryHeadReads(s, es, id, up);
    var before := HeadOf(s, id).value;
    RollBackIs(Persist(s, CanaryHead(before), up), id, m', up');
  }

  /** How an evaluated head reads once it is published. */
  lemma EvaluatedHead(s: RolloutState, id: string, m: Manifests, up: bool)
    requires TrimSpace(id) == id != "" && Evaluate(id, m).Some?
    ensures var now := Evaluate(id, m).value;
            HeadOf(Persist(s, now, up), id)
              == Some(now.(candidate := if now.candidate.value.version == "" then None else now.candidate))
  {
    var now := Evaluate(id, m).value;
    NeatSnapshot(m.current(id).value);
    NeatSnapshot(m.candidate(id).value);
    assert now.(pluginId := id) == now;
  }

  /** A call that finds drift leaves the very state that preparing anew would leave. */
  lemma DriftPreparesAnew(s: RolloutState, id: string, m: Manifests, up: bool, call: Call)
    requires call in {CanActivate, Activate, StartCanary} && TrimSpace(id) == id
    requires Perform(s, call, id, m, up).1 == Err(Drifted)
    ensures Evaluate(id, m).Some? && Perform(s, call, id, m, up).0 == Perform(s, Prepare, id, m, up).0
  {
  }

  /** From there the next attempt with the same manifests succeeds, unless a check fails or the candidate has no
      version. */
  lemma PreparedThenActivate(s: RolloutState, id: string, m: Manifests, up: bool, call: Call)
    requires call in {CanActivate, Activate, StartCanary} && TrimSpace(id) == id != "" && Evaluate(id, m).Some?
    ensures var now := Evaluate(id, m).value; var t := Perform(s, Prepare, id, m, up).0;
            Perform(t, call, id, m, up).1.Ok? <==> now.status.Prepared? && now.candidate.value.version != ""
  {
    var now := Evaluate(id, m).value;
    EvaluatedHead(s, id, m, up);
    var h := now.(candidate := if now.candidate.value.version == "" then None else now.candidate);
    assert Validate(Perform(s, Prepare, id, m, up).0, id, h, m, up).1.Ok? <==>
        now.status.Prepared? && now.candidate.value.version != "";
  }

  // ---- Restarting ----

  /** The store holds every head that it is willing to hold. */
  predicate Mirrored(s: RolloutState) {
    && (forall key :: key in s.heads && Savable(s.heads[key]) ==>
        key in s.stored && s.stored[key] == Normalized(s.heads[key]))
    && (forall key :: key in s.stored ==> Normalized(s.stored[key]) == s.stored[key])
  }

  predicate AllUp(es: seq<Event>) {
    forall i :: 0 <= i < |es| && es[i].Invoke? ==> es[i].up
  }

  lemma PerformPersists(s: RolloutState, call: Call, pluginId: string, m: Manifests, up: bool)
    returns (head: Option<Head>)
    ensures Perform(s, call, pluginId, m, up).0 == if head.Some? then Persist(s, head.value, up) else s
  {
    var id := TrimSpace(pluginId);
    var t := Perform(s, call, pluginId, m, up).0;
    head := None;
    if call.Prepare? {
      head := Evaluate(pluginId, m);
    } else if id != "" && HeadOf(s, id).Some? {
      var h := HeadOf(s, id).value;
      if call.RollBack? {
        head := if CanRollBack(h) then Some(RolledBackHead(h)) else None;
      } else if !call.CanRollback? {
        head := ValidatePersists(s, id, h, m, up);
        if Validate(s, id, h, m, up).1.Ok? {
          if call.Activate? {
            head := Some(ActivatedHead(h));
          } else if call.StartCanary? && h.phase.Candidate? {
            head := Some(CanaryHead(h));
          }
        }
      }
    }
  }

  lemma ValidatePersists(s: RolloutState, id: string, h: Head, m: Manifests, up: bool) returns (head: Option<Head>)
    ensures Validate(s, id, h, m, up).0 == if head.Some? then Persist(s, head.value, up) else s
    ensures Validate(s, id, h, m, up).1.Ok? ==> head.None? && h.candidate.Some?
  {
    head := if Validate(s, id, h, m, up).1 == Err(Drifted) then Evaluate(id, m) else None;
  }

  lemma NormalizedTwice(h: Head)
    ensures Normalized(Normalized(h)) == Normalized(h)
  {
    TrimSpaceFixes(h.pluginId);
    TrimSpaceFixes(TrimSpace(h.pluginId));
    NeatTwice(h.stable);
    NeatTwice(h.active);
    if h.candidate.Some? {
      NeatTwice(h.candidate.value);
    }
  }

  lemma NeatTwice(s: Snapshot)
    ensures NormalizedSnapshot(NormalizedSnapshot(s)) == NormalizedSnapshot(s)
  {
    NeatSnapshot(Manifest("", s.version, s.apiVersion, s.mode));
  }

  lemma PersistMirrored(s: RolloutState, head: Head)
    requires Mirrored(s)
    ensures Mirrored(Persist(s, head, true))
  {
    NormalizedTwice(head.(pluginId := TrimSpace(head.pluginId)));
  }

  lemma RestartMirrored(s: RolloutState)
    requires Mirrored(s)
    ensures Mirrored(Restart(s))
  {
    assert Restart(s).heads == s.stored;
  }

  lemma StepMirrored(s: RolloutState, e: Event)
    requires Mirrored(s) && (e.Invoke? ==> e.up)
    ensures Mirrored(Step(s, e))
  {
    match e
    case Invoke(call, pluginId, m, up) =>
      var head := PerformPersists(s, call, pluginId, m, up);
      if head.Some? {
        PersistMirrored(s, head.value);
      }
    case Reboot => RestartMirrored(s);
  }

  lemma {:induction false} RunMirrored(es: seq<Event>)
    requires AllUp(es)
    ensures Mirrored(Run(GENESIS, es))
    decreases |es|
  {
    if es != [] {
      RunMirrored(es[..|es| - 1]);
      StepMirrored(Run(GENESIS, es[..|es| - 1]), es[|es| - 1]);
    }
  }

  /** While the store accepts writes, a restart brings back every head that has all its versions. */
  lemma RestartKeepsHeads(es: seq<Event>, id: string)
    requires AllUp(es) && TrimSpace(id) in Run(GENESIS, es).heads && Savable(Run(GENESIS, es).heads[TrimSpace(id)])
    ensures HeadOf(Restart(Run(GENESIS, es)), id) == HeadOf(Run(GENESIS, es), id)
  {
    RunMirrored(es);
    NormalizedTwice(Run(GENESIS, es).heads[TrimSpace(id)]);
  }
}
