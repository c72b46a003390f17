/** What an operation never rewrites, over whole runs. */
module StoreHistory {
  import opened Options
  import opened Domain
  import opened Store
  import opened StoreFrames
  import opened StoreSafety

  /** Published versions, stored revisions and their positions are only added to. */
  ghost predicate SeqsGrow<K(!new), V(!new)>(m: map<K, seq<V>>, m': map<K, seq<V>>) {
    forall k | k in m :: k in m' && m[k] <= m'[k]
  }

  /** A request keeps its first outcome. */
  ghost predicate RequestsStay(m: map<RequestKey, Request>, m': map<RequestKey, Request>) {
    forall k | k in m :: k in m' && m'[k] == m[k]
  }

  /** A creation keeps its outcome once it is not pending. */
  ghost predicate CreationsStay(m: map<RequestKey, Creation>, m': map<RequestKey, Creation>) {
    forall k | k in m :: k in m' && m'[k] == m[k].(outcome := m'[k].outcome) && (m[k].outcome != Pending ==> m'[k] == m[k])
  }

  /** A placement is only ever superseded. */
  ghost predicate PlacementsStay(m: map<GRN, map<string, Placement>>, m': map<GRN, map<string, Placement>>) {
    forall agent, uid | agent in m && uid in m[agent] :: agent in m' && PlacementStays(m[agent], m'[agent], uid)
  }

  ghost predicate PlacementStays(ps: map<string, Placement>, ps': map<string, Placement>, uid: string)
    requires uid in ps
  {
    uid in ps' && ps'[uid] == ps[uid].(superseded := ps'[uid].superseded) && (ps[uid].superseded ==> ps'[uid].superseded)
  }

  /** An activation request sends garam the same request on every attempt, and keeps its answer. */
  ghost predicate ActivationsStay(m: map<GRN, map<string, Activation>>, m': map<GRN, map<string, Activation>>) {
    forall agent, id | agent in m && id in m[agent] :: agent in m' && ActivationStays(m[agent], m'[agent], id)
  }

  ghost predicate ActivationStays(as_: map<string, Activation>, as': map<string, Activation>, id: string)
    requires id in as_
  {
    && id in as' && as'[id] == as_[id].(activationID := as'[id].activationID)
    && (as_[id].activationID != "" ==> as'[id] == as_[id])
  }

  function StageRank(stage: RecoveryStage): nat {
    match stage
    case RecoveryRequested => 0
    case RecoveryPrepared => 1
    case RecoveryFinalized => 2
  }

  /** A recovery's stage only advances, and its body and lineage once there are never rewritten. */
  ghost predicate RecoveryStays(r: Recovery, r': Recovery) {
    && r' == r.(stage := r'.stage, body := r'.body, recovered := r'.recovered)
    && StageRank(r.stage) <= StageRank(r'.stage)
    && (r.body != NoBody ==> r'.body == r.body)
    && (r.recovered.Some? ==> r'.recovered == r.recovered)
  }

  ghost predicate RecoveriesStay(m: map<GRN, seq<Recovery>>, m': map<GRN, seq<Recovery>>) {
    forall agent | agent in m :: agent in m' && ListStays(m[agent], m'[agent])
  }

  ghost predicate ListStays(rs: seq<Recovery>, rs': seq<Recovery>) {
    |rs| <= |rs'| && forall i | 0 <= i < |rs| :: RecoveryStays(rs[i], rs'[i])
  }

  /** A stop keeps the activation it recorded, and ends once. */
  ghost predicate StopsStay(m: map<RequestKey, Stop>, m': map<RequestKey, Stop>) {
    forall k | k in m :: k in m' && StopStays(m[k], m'[k])
  }

  ghost predicate StopStays(s: Stop, s': Stop) {
    && s' == s.(deactivated := s'.deactivated, start := s'.start)
    && (s.deactivated ==> s'.deactivated) && (s.start.Some? ==> s'.start == s.start)
  }

  ghost predicate EndsStay(m: map<RequestKey, RequestKey>, m': map<RequestKey, RequestKey>) {
    forall k | k in m :: k in m' && m'[k] == m[k]
  }

  ghost predicate AllKept(s: Store, s': Store) {
    && SeqsGrow(s.profiles, s'.profiles)
    && SeqsGrow(s.definitions, s'.definitions)
    && SeqsGrow(s.positions, s'.positions)
    && s.position <= s'.position
    && CreationsStay(s.creations, s'.creations)
    && RequestsStay(s.requests, s'.requests)
    && PlacementsStay(s.placements, s'.placements)
    && ActivationsStay(s.activations, s'.activations)
    && RecoveriesStay(s.recoveries, s'.recoveries)
    && StopsStay(s.stops, s'.stops)
    && EndsStay(s.stopEnds, s'.stopEnds)
  }

  /** Behind a quantifier, so that a proof unfolds it only where it opens it. */
  ghost predicate Kept(s: Store, s': Store) {
    forall shown: bool :: KeptWhen(shown, s, s')
  }

  ghost predicate KeptWhen(shown: bool, s: Store, s': Store) {
    shown ==> AllKept(s, s')
  }

  lemma Open(s: Store, s': Store)
    requires Kept(s, s')
    ensures AllKept(s, s')
  {
    assert KeptWhen(true, s, s');
  }

  lemma Close(s: Store, s': Store)
    requires AllKept(s, s')
    ensures Kept(s, s')
  {
  }

  // ---- Over operations ----

  lemma PublishKept(s: Store, key: Named, settings: Settings)
    ensures Kept(s, s.(profiles := s.profiles[key := At(s.profiles, key) + [settings]]))
    ensures Kept(s, s)
  {
  }

  lemma AppendKept(s: Store, d: Definition, requests: map<RequestKey, Request>, creations: map<RequestKey, Creation>)
    requires Append(s, d).Some? && RequestsStay(s.requests, requests) && CreationsStay(s.creations, creations)
    ensures Kept(s, Append(s, d).value.(requests := requests, creations := creations))
  {
    Close(s, Append(s, d).value.(requests := requests, creations := creations));
  }

  lemma RecordsKept(s: Store, requests: map<RequestKey, Request>, creations: map<RequestKey, Creation>)
    requires RequestsStay(s.requests, requests) && CreationsStay(s.creations, creations)
    ensures Kept(s, s.(requests := requests, creations := creations))
  {
  }

  lemma ConfigureKept(s: Store, r: Request, d: Definition)
    ensures Kept(s, Configure(s, r, d).0)
  {
    var s' := Configure(s, r, d).0;
    if Append(s, d).Some? && s' != s {
      AppendKept(s, d, s'.requests, s.creations);
    } else {
      RecordsKept(s, s'.requests, s.creations);
    }
  }

  lemma CreationKept(s: Store, key: RequestKey, c: Creation)
    requires key in s.creations ==> s.creations[key].outcome == Pending && c == s.creations[key].(outcome := c.outcome)
    ensures CreationsStay(s.creations, s.creations[key := c]) && CreationsStay(s.creations, s.creations)
  {
  }

  lemma RegisterKept(s: Store, key: RequestKey, d: Definition)
    requires d.assignment.Some?
    ensures Kept(s, RegisterCreation(s, key, d).0)
  {
    var s' := RegisterCreation(s, key, d).0;
    if Append(s, d).Some? && s' != s {
      CreationKept(s, key, s'.creations[key]);
      AppendKept(s, d, s.requests, s'.creations);
    } else {
      RecordsKept(s, s.requests, s.creations);
    }
  }

  lemma CreationOpsKept(s: Store, op: Op)
    requires op.OpBeginCreation? || (op.OpFailCreation? && op.failed.Failed?)
    ensures Kept(s, Apply(s, op))
  {
    match op {
      case OpBeginCreation(c) =>
        if c.key !in s.creations {
          CreationKept(s, c.key, c.(outcome := Pending));
        }
      case OpFailCreation(key, failed) =>
        if key in s.creations && s.creations[key].outcome == Pending {
          CreationKept(s, key, s.creations[key].(outcome := failed));
        }
    }
    RecordsKept(s, s.requests, Apply(s, op).creations);
  }

  lemma PlacedStays(ps: map<string, Placement>, path: seq<string>, input: PlacementInput)
    requires IsPath(ps, path) && input.request.podUID !in ps
    ensures forall uid | uid in ps :: PlacementStays(ps, Placed(ps, Current(ps), input), uid)
  {
    PathCurrent(ps, path);
  }

  lemma PlacementsKept(s: Store, agent: GRN, ps: map<string, Placement>)
    requires agent in s.placements ==> forall uid | uid in s.placements[agent] :: PlacementStays(s.placements[agent], ps, uid)
    ensures Kept(s, s.(placements := s.placements[agent := ps]))
  {
    Close(s, s.(placements := s.placements[agent := ps]));
  }

  lemma PlacementKept(s: Store, input: PlacementInput)
    requires PlacementsOk(s.placements)
    ensures Kept(s, RegisterPlacement(s, input).0)
  {
    var s' := RegisterPlacement(s, input).0;
    var ps := In(s.placements, input.agent);
    if s' != s {
      if input.agent in s.placements {
        assert OnePath(ps);
        var path :| IsPath(ps, path);
        PlacedStays(ps, path, input);
      }
      PlacementsKept(s, input.agent, Placed(ps, Current(ps), input));
    } else {
      Close(s, s);
    }
  }

  lemma ActivationsKept(s: Store, a: Activation, latest: map<GRN, string>)
    requires var id := a.request.requestID;
             var stored := In(s.activations, a.agent);
             id in stored ==> a == stored[id].(activationID := a.activationID) && stored[id].activationID in {"", a.activationID}
    ensures Kept(s, s.(activations := s.activations[a.agent := In(s.activations, a.agent)[a.request.requestID := a]], latest := latest))
  {
    var s' := s.(activations := s.activations[a.agent := In(s.activations, a.agent)[a.request.requestID := a]], latest := latest);
    forall agent, id | agent in s.activations && id in s.activations[agent]
      ensures agent in s'.activations && ActivationStays(s.activations[agent], s'.activations[agent], id)
    {
    }
    Close(s, s');
  }

  /** An activation is stored under its own agent and request id. */
  ghost predicate Keyed(activations: map<GRN, map<string, Activation>>) {
    forall agent, id | agent in activations && id in activations[agent] ::
      activations[agent][id].agent == agent && activations[agent][id].request.requestID == id
  }

  lemma AppliedKept(s: Store, applied: map<GRN, RuntimeApplied>)
    ensures Kept(s, s.(applied := applied))
  {
    Close(s, s.(applied := applied));
  }

  lemma ActivationOpsKept(s: Store, op: Op)
    requires Permitted(s, op) && (op.OpInsertActivation? || op.OpRecordActivation? || op.OpRecordApplied?)
    requires Keyed(s.activations)
    ensures Kept(s, Apply(s, op))
  {
    AppliedKept(s, s.applied);
    match op {
      case OpInsertActivation(a) =>
        if a.request.requestID !in In(s.activations, a.agent) {
          ActivationsKept(s, a, s.latest);
        }
      case OpRecordActivation(agent, requestID, activationID) =>
        if RecordActivation(s, agent, requestID, activationID).1.Ok? {
          ActivationsKept(s, s.activations[agent][requestID].(activationID := activationID), s.latest[agent := activationID]);
        }
      case OpRecordApplied(agent, applied) => AppliedKept(s, s.applied[agent := applied]);
    }
  }

  lemma RecoveriesKept(s: Store, s': Store)
    requires s' == s.(recoveries := s'.recoveries, position := s'.position) && s'.position >= s.position
    requires RecoveriesStay(s.recoveries, s'.recoveries)
    ensures Kept(s, s')
  {
    Close(s, s');
  }

  lemma OneRecoveryStays(s: Store, agent: GRN, i: nat, r: Recovery)
    requires i < |At(s.recoveries, agent)| && RecoveryStays(s.recoveries[agent][i], r)
    ensures RecoveriesStay(s.recoveries, WithRecovery(s, agent, i, r).recoveries)
  {
  }

  lemma RecoveryOpsKept(s: Store, op: Op)
    requires RecoveriesOk(s.recoveries)
    requires Permitted(s, op) && (op.OpOpenRecovery? || op.OpPrepareRecovery? || op.OpFinalizeRecovery?)
    ensures Kept(s, Apply(s, op))
  {
    match op {
      case OpOpenRecovery(r) => OpenKept(s, r);
      case OpPrepareRecovery(agent, requestID, epoch) => PrepareKept(s, agent, requestID, epoch);
      case OpFinalizeRecovery(agent, requestID, lineage) => FinalizeKept(s, agent, requestID, lineage);
    }
  }

  lemma AddedStays(m: map<GRN, seq<Recovery>>, agent: GRN, r: Recovery)
    ensures RecoveriesStay(m, m[agent := At(m, agent) + [r]]) && RecoveriesStay(m, m)
  {
  }

  lemma OpenKept(s: Store, r: Recovery)
    ensures Kept(s, RecordRecovery(s, r).0)
  {
    AddedStays(s.recoveries, r.agent, r);
    assert RecordRecovery(s, r).0.recoveries in {s.recoveries, s.recoveries[r.agent := At(s.recoveries, r.agent) + [r]]};
    OpenFrame(s, r);
    RecoveriesKept(s, RecordRecovery(s, r).0);
  }

  lemma PrepareKept(s: Store, agent: GRN, requestID: string, epoch: string)
    requires RecoveriesOk(s.recoveries)
    ensures Kept(s, PrepareRecovery(s, agent, requestID, epoch, RecoveryBody(requestID, epoch)).0)
  {
    var s' := PrepareRecovery(s, agent, requestID, epoch, RecoveryBody(requestID, epoch)).0;
    if s' != s {
      var i := RecoveryIndex(At(s.recoveries, agent), requestID).value;
      assert RecoveryListOk(agent, s.recoveries[agent]);
      OneRecoveryStays(s, agent, i, s'.recoveries[agent][i]);
    }
    RecoveriesKept(s, s');
  }

  lemma FinalizeKept(s: Store, agent: GRN, requestID: string, lineage: string)
    requires RecoveriesOk(s.recoveries)
    ensures Kept(s, FinalizeRecovery(s, agent, requestID, lineage).0)
  {
    var s' := FinalizeRecovery(s, agent, requestID, lineage).0;
    if s' != s {
      var i := RecoveryIndex(At(s.recoveries, agent), requestID).value;
      assert RecoveryListOk(agent, s.recoveries[agent]);
      OneRecoveryStays(s, agent, i, s'.recoveries[agent][i]);
    }
    RecoveriesKept(s, s');
  }

  lemma StopsKept(s: Store, s': Store)
    requires s' == s.(stops := s'.stops, stopEnds := s'.stopEnds, position := s'.position) && s'.position >= s.position
    requires StopsStay(s.stops, s'.stops) && EndsStay(s.stopEnds, s'.stopEnds)
    ensures Kept(s, s')
  {
    Close(s, s');
  }

  lemma StopOpsKept(s: Store, op: Op)
    requires StopsOk(s.stops, s.stopEnds)
    requires op.OpRecordStop? || op.OpRecordDeactivation? || op.OpRecordStart?
    ensures Kept(s, Apply(s, op))
  {
    match op {
      case OpRecordStop(stop) => StopKept(s, stop);
      case OpRecordDeactivation(key) => DeactivationKept(s, key);
      case OpRecordStart(agent, end) => StartKept(s, agent, end);
    }
  }

  lemma StopSet(m: map<RequestKey, Stop>, key: RequestKey, stop: Stop)
    requires key in m ==> StopStays(m[key], stop)
    ensures StopsStay(m, m[key := stop]) && StopsStay(m, m)
  {
  }

  lemma StopKept(s: Store, stop: Stop)
    ensures Kept(s, RecordStop(s, stop).0)
  {
    var stored := stop.(deactivated := false, start := None);
    if stop.key !in s.stops {
      StopSet(s.stops, stop.key, stored);
    }
    assert RecordStop(s, stop).0.stops in {s.stops, s.stops[stop.key := stored]};
    StopFrame(s, stop);
    StopsKept(s, RecordStop(s, stop).0);
  }

  lemma DeactivationKept(s: Store, key: RequestKey)
    ensures Kept(s, RecordDeactivation(s, key).0)
  {
    if key in s.stops {
      StopSet(s.stops, key, s.stops[key].(deactivated := true));
    }
    DeactivationFrame(s, key);
    StopsKept(s, RecordDeactivation(s, key).0);
  }

  lemma StartKept(s: Store, agent: GRN, end: StopEnd)
    requires StopsOk(s.stops, s.stopEnds)
    ensures Kept(s, RecordStart(s, agent, end).0)
  {
    var s' := RecordStart(s, agent, end).0;
    if s' != s {
      var stop := CurrentStop(s, agent).value;
      assert HoldsAgent(s, agent, stop.key);
      assert s'.stops == s.stops[stop.key := s.stops[stop.key].(start := Some(end))];
    }
    StartFrame(s, agent, end);
    StopsKept(s, s');
  }

  lemma ApplyKept(s: Store, op: Op)
    requires StoreOk(s) && Keyed(s.activations) && Permitted(s, op)
    ensures Kept(s, Apply(s, op))
  {
    match op {
      case OpPublish(organization, name, settings) => PublishKept(s, Named(organization, name), settings);
      case OpPublishVersion(organization, ref, settings) => PublishKept(s, Named(organization, ref.name), settings);
      case OpConfigure(r, d) => ConfigureKept(s, r, d);
      case OpRegisterCreation(key, d) => RegisterKept(s, key, d);
      case OpBeginCreation(_) => CreationOpsKept(s, op);
      case OpFailCreation(_, _) => CreationOpsKept(s, op);
      case OpRegisterPlacement(input) => PlacementKept(s, input);
      case OpOpenRecovery(_) => RecoveryOpsKept(s, op);
      case OpPrepareRecovery(_, _, _) => RecoveryOpsKept(s, op);
      case OpFinalizeRecovery(_, _, _) => RecoveryOpsKept(s, op);
      case OpRecordStop(_) => StopOpsKept(s, op);
      case OpRecordDeactivation(_) => StopOpsKept(s, op);
      case OpRecordStart(_, _) => StopOpsKept(s, op);
      case _ => ActivationOpsKept(s, op);
    }
  }

  lemma ApplyKeyed(s: Store, op: Op)
    requires Keyed(s.activations) && Permitted(s, op)
    ensures Keyed(Apply(s, op).activations)
  {
    if !op.OpInsertActivation? && !op.OpRecordActivation? {
      SameActivations(s, op);
    }
  }

  lemma SameActivations(s: Store, op: Op)
    requires Permitted(s, op) && !op.OpInsertActivation? && !op.OpRecordActivation?
    ensures Apply(s, op).activations == s.activations && Apply(s, op).latest == s.latest
  {
    ApplyFrame(s, op);
    FrameSays(op, s, Apply(s, op));
  }

  // ---- Over runs ----

  lemma KeptOn(s: Store, s1: Store, s2: Store)
    requires Kept(s, s1) && Kept(s1, s2)
    ensures Kept(s, s2)
  {
    Open(s, s1);
    Open(s1, s2);
    forall agent, uid | agent in s.placements && uid in s.placements[agent]
      ensures agent in s2.placements && PlacementStays(s.placements[agent], s2.placements[agent], uid)
    {
      assert PlacementStays(s.placements[agent], s1.placements[agent], uid);
    }
    forall agent, id | agent in s.activations && id in s.activations[agent]
      ensures agent in s2.activations && ActivationStays(s.activations[agent], s2.activations[agent], id)
    {
      assert ActivationStays(s.activations[agent], s1.activations[agent], id);
    }
    forall agent | agent in s.recoveries
      ensures agent in s2.recoveries && ListStays(s.recoveries[agent], s2.recoveries[agent])
    {
      assert ListStays(s.recoveries[agent], s1.recoveries[agent]) && ListStays(s1.recoveries[agent], s2.recoveries[agent]);
    }
    Close(s, s2);
  }

  lemma StepKeyed(s: Store, s': Store)
    requires Keyed(s.activations) && Step(s, s')
    ensures Keyed(s'.activations)
  {
    var op :| Permitted(s, op) && s' == Apply(s, op);
    ApplyKeyed(s, op);
  }

  lemma StepKept(s: Store, s': Store)
    requires StoreOk(s) && Keyed(s.activations) && Step(s, s')
    ensures Kept(s, s')
  {
    var op :| Permitted(s, op) && s' == Apply(s, op);
    ApplyKept(s, op);
  }

  lemma {:induction false} RunIsKeyed(run: seq<Store>, i: nat)
    requires IsRun(run) && i < |run|
    ensures Keyed(run[i].activations)
  {
    if i > 0 {
      RunIsKeyed(run, i - 1);
      assert StepAt(run, i - 1);
      StepKeyed(run[i - 1], run[i]);
    }
  }

  /** Over every run: a stored outcome once applied, stale, registered or failed never changes, a
      superseded placement never stands again, an activation request is sent the same on every attempt,
      a prepared body and a lineage are never rewritten, no revision, published version or position is,
      and the position never decreases. */
  lemma {:induction false} RunKept(run: seq<Store>, i: nat, j: nat)
    requires IsRun(run) && i <= j < |run|
    ensures Kept(run[i], run[j])
    decreases j
  {
    if i < j {
      RunKept(run, i, j - 1);
      RunIsOk(run, j - 1);
      RunIsKeyed(run, j - 1);
      assert StepAt(run, j - 1);
      StepKept(run[j - 1], run[j]);
      KeptOn(run[i], run[j - 1], run[j]);
    } else {
      Close(run[i], run[i]);
    }
  }
}
