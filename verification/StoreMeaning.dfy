/** What each operation of the store stores and answers, in the stored entries' own fields. */
module StoreMeaning {
  import opened Options
  import opened Domain
  import opened Store
  import opened StoreSafety

  // ---- Profiles ----

  /** A profile's new version is the number of those published, and holds what was given. */
  lemma PublishSays(s: Store, organization: string, name: string, settings: Settings)
    ensures var (t, version) := PublishProfile(s, organization, name, settings);
            var key := Named(organization, name);
            && version == |At(s.profiles, key)| + 1 && key in t.profiles && |t.profiles[key]| == version
            && t.profiles[key][version - 1] == settings
            && t == s.(profiles := t.profiles) && At(s.profiles, key) <= t.profiles[key]
            && forall k | k != key :: (k in t.profiles <==> k in s.profiles) && (k in s.profiles ==> t.profiles[k] == s.profiles[k])
  {
  }

  /** A version given by number is published where it is the next, answered where it says the same already,
      and refused otherwise. */
  lemma PublishVersionSays(s: Store, organization: string, ref: ProfileRef, settings: Settings)
    requires ref.version >= 1
    ensures var (t, answer) := PublishProfileVersion(s, organization, ref, settings);
            var key := Named(organization, ref.name);
            var n := |At(s.profiles, key)|;
            && (ref.version == n + 1 ==> answer == Ok(true) && t == s.(profiles := s.profiles[key := At(s.profiles, key) + [settings]]))
            && (ref.version != n + 1 ==> t == s)
            && (ref.version <= n ==> answer == if s.profiles[key][ref.version - 1] == settings then Ok(false) else Err(ProfileVersionConflict))
            && (ref.version > n + 1 ==> answer == Err(ProfileVersionGap))
  {
  }

  // ---- Revisions and creations ----

  /** A configure request used before is answered as it ended, and one for an agent not in the organization
      is not stored. */
  lemma ConfigureAgainSays(s: Store, r: Request, d: Definition)
    requires r.key in s.requests || At(s.definitions, d.agent) == [] || s.definitions[d.agent][0].organization != d.organization
    ensures Configure(s, r, d) == (s, if r.key in s.requests then Ok(s.requests[r.key]) else Err(NotFound))
  {
  }

  /** Otherwise it is answered as it is stored: applied, with its revision the agent's latest at a new
      position, where that is the next, and stale where it is not. */
  lemma ConfigureSays(s: Store, r: Request, d: Definition)
    requires r.key !in s.requests && At(s.definitions, d.agent) != [] && s.definitions[d.agent][0].organization == d.organization
    ensures var (t, answer) := Configure(s, r, d);
            var n := |s.definitions[d.agent]|;
            var stored := r.(outcome := if d.revision == n + 1 then Applied(n + 1) else Stale);
            && answer == Ok(stored)
            && t == if d.revision != n + 1 then s.(requests := s.requests[r.key := stored])
                    else s.(requests := s.requests[r.key := stored], position := s.position + 1,
                            definitions := s.definitions[d.agent := s.definitions[d.agent] + [d]],
                            positions := s.positions[d.agent := At(s.positions, d.agent) + [s.position + 1]])
  {
  }

  lemma CreationSays(s: Store, c: Creation)
    ensures var (t, stored) := BeginCreation(s, c);
            && c.key in t.creations && stored == t.creations[c.key]
            && (if c.key in s.creations then t == s else stored == c.(outcome := Pending) && t == s.(creations := s.creations[c.key := stored]))
  {
  }

  /** A pending creation registers its agent, under the epoch of its assignment, with its first revision at a
      new position, in one change; one that ended is answered as it ended. */
  lemma RegisterSays(s: Store, key: RequestKey, d: Definition)
    requires d.assignment.Some? && d.revision == 1
    ensures var (t, answer) := RegisterCreation(s, key, d);
            && (key !in s.creations ==> t == s && answer == Err(NotFound))
            && (key in s.creations && s.creations[key].outcome != Pending ==> t == s && answer == Ok((s.creations[key], false)))
            && (key in s.creations && s.creations[key].outcome == Pending && At(s.definitions, d.agent) != [] ==>
                  t == s && answer == Err(StaleRevision))
            && (key in s.creations && s.creations[key].outcome == Pending && At(s.definitions, d.agent) == [] ==>
                  && key in t.creations && answer == Ok((t.creations[key], true))
                  && t.creations[key] == s.creations[key].(outcome := Registered(d.agent, d.assignment.value.epoch))
                  && d.agent in t.definitions && t.definitions[d.agent] == [d]
                  && d.agent in t.positions && t.positions[d.agent] == At(s.positions, d.agent) + [s.position + 1]
                  && t.position == s.position + 1)
  {
  }

  lemma FailSays(s: Store, key: RequestKey, failed: Outcome)
    ensures var (t, answer) := FailCreation(s, key, failed);
            && (key !in s.creations ==> t == s && answer == Err(NotFound))
            && (key in s.creations && s.creations[key].outcome != Pending ==> t == s && answer == Ok(s.creations[key]))
            && (key in s.creations && s.creations[key].outcome == Pending ==>
                  && t == s.(creations := s.creations[key := s.creations[key].(outcome := failed)])
                  && answer == Ok(t.creations[key]))
  {
  }

  /** An agent's definition is its last revision. */
  lemma DefinitionSays(s: Store, agent: GRN)
    ensures GetDefinition(s, agent) ==
              if agent in s.definitions && s.definitions[agent] != [] then Ok(s.definitions[agent][|s.definitions[agent]| - 1])
              else Err(NotFound)
  {
  }

  // ---- Placements ----

  ghost predicate Stands(ps: map<string, Placement>, uid: string) {
    uid in ps && !ps[uid].superseded
  }

  /** A Pod's own placement, asked again, is answered or refused as it stands. */
  lemma PlacedAgainSays(s: Store, input: PlacementInput)
    requires input.request.podUID in In(s.placements, input.agent)
    ensures var (t, answer) := RegisterPlacement(s, input);
            var same := s.placements[input.agent][input.request.podUID];
            && t == s
            && answer == if same.superseded then Err(PlacementSuperseded)
                         else if same.request != input.request || same.controller != input.controller then Err(PlacementConflict)
                         else Ok((same, false))
  {
  }

  /** A Pod's first placement is stored, and the one that stood superseded, exactly where it names none and
      none stands, or names with evidence the one that stands. */
  lemma PlacedFirstSays(s: Store, input: PlacementInput)
    requires PlacementsOk(s.placements) && input.request.podUID !in In(s.placements, input.agent)
    ensures var (t, answer) := RegisterPlacement(s, input);
            var ps, previous := In(s.placements, input.agent), input.request.previous;
            var names := previous.podUID != "" || previous.writerStoppedSHA256 != "";
            var stored := Placement(input.agent, input.controller, input.request, false);
            && (answer.Ok? <==> if !names then forall uid :: !Stands(ps, uid)
                                else Stands(ps, previous.podUID) && previous.writerStoppedSHA256 != "")
            && (answer.Err? ==> t == s)
            && (answer.Err? && names && Stands(ps, previous.podUID) ==> answer == Err(EvidenceMissing))
            && (answer.Err? && !(names && Stands(ps, previous.podUID)) ==> answer == Err(PreviousMismatch))
            && (answer.Ok? ==>
                  && answer == Ok((stored, true))
                  && t == s.(placements := s.placements[input.agent :=
                       (if names then ps[previous.podUID := ps[previous.podUID].(superseded := true)] else ps)[input.request.podUID := stored]]))
  {
    var ps := In(s.placements, input.agent);
    var path := if input.agent in s.placements then OnlyPath(ps) else [];
    PathCurrent(ps, path);
    assert forall uid :: Stands(ps, uid) <==> IsCurrent(ps, uid);
    assert path != [] ==> ps[Last(path)].request.podUID == Last(path);
  }

  ghost function OnlyPath(ps: map<string, Placement>): (path: seq<string>)
    requires OnePath(ps)
    ensures IsPath(ps, path)
  {
    var path :| IsPath(ps, path);
    path
  }

  // ---- Activations ----

  /** An activation is stored once under its agent and id, with garam's answer to come; what garam answers is
      kept with it and as the agent's latest, and no other answer after it; and both are what is read. */
  lemma ActivationSays(s: Store, a: Activation, id: string)
    requires a.activationID == "" && a.request.requestID !in In(s.activations, a.agent)
    ensures var (t, stored) := InsertActivation(s, a);
            && stored == a && GetActivation(t, a.agent, a.request.requestID) == Ok(a) && t == s.(activations := t.activations)
            && LatestActivation(t, a.agent) == LatestActivation(s, a.agent)
            && InsertActivation(t, a.(operationRef := a.operationRef + "x")) == (t, a)
            && var (u, answer) := RecordActivation(t, a.agent, a.request.requestID, id);
            && answer == Ok(()) && GetActivation(u, a.agent, a.request.requestID) == Ok(a.(activationID := id))
            && LatestActivation(u, a.agent) == Ok(id)
            && u == t.(activations := u.activations, latest := u.latest)
            && forall other | id != "" && other != id ::
                 RecordActivation(u, a.agent, a.request.requestID, other) == (u, Err(ActivationMismatch))
  {
  }

  lemma UnknownActivationSays(s: Store, agent: GRN, requestID: string, id: string)
    requires requestID !in In(s.activations, agent)
    ensures RecordActivation(s, agent, requestID, id) == (s, Err(NotFound)) && GetActivation(s, agent, requestID) == Err(NotFound)
  {
  }

  lemma AppliedSays(s: Store, agent: GRN, applied: RuntimeApplied)
    ensures var t := RecordRuntimeApplied(s, agent, applied);
            && agent in t.applied && t.applied[agent] == applied && t == s.(applied := t.applied)
            && forall other | other != agent :: (other in t.applied <==> other in s.applied) && (other in s.applied ==> t.applied[other] == s.applied[other])
  {
  }

  // ---- Recoveries ----

  ghost predicate IsRecovery(s: Store, agent: GRN, i: int, requestID: string) {
    agent in s.recoveries && 0 <= i < |s.recoveries[agent]| && s.recoveries[agent][i].requestID == requestID
  }

  lemma IndexIs(s: Store, agent: GRN, i: nat, requestID: string)
    requires RecoveriesOk(s.recoveries) && IsRecovery(s, agent, i, requestID)
    ensures RecoveryIndex(At(s.recoveries, agent), requestID) == Some(i)
  {
    assert RecoveryListOk(agent, s.recoveries[agent]);
  }

  /** All but one recovery of one agent is as it was. */
  ghost predicate OnlyRecovery(s: Store, t: Store, agent: GRN, i: nat, r: Recovery) {
    && agent in s.recoveries && i < |s.recoveries[agent]| && agent in t.recoveries
    && t.recoveries == s.recoveries[agent := t.recoveries[agent]] && |t.recoveries[agent]| == |s.recoveries[agent]|
    && t.recoveries[agent][i] == r
    && forall j | 0 <= j < |s.recoveries[agent]| && j != i :: t.recoveries[agent][j] == s.recoveries[agent][j]
  }

  /** A prepared recovery is finalized with the very lineage given, at a new position; a finalized one is
      answered with the lineage it has; and one not prepared is refused. */
  lemma FinalizeSays(s: Store, agent: GRN, i: nat, requestID: string, lineage: string)
    requires RecoveriesOk(s.recoveries) && IsRecovery(s, agent, i, requestID)
    ensures var (t, answer) := FinalizeRecovery(s, agent, requestID, lineage);
            var r := s.recoveries[agent][i];
            match r.stage
            case RecoveryRequested => t == s && answer == Err(RecoveryStageMismatch)
            case RecoveryFinalized => t == s && answer == Ok(r)
            case RecoveryPrepared =>
              var finalized := r.(stage := RecoveryFinalized, recovered := Some(lineage));
              && OnlyRecovery(s, t, agent, i, finalized) && answer == Ok(finalized)
              && t == s.(recoveries := t.recoveries, position := s.position + 1)
  {
    IndexIs(s, agent, i, requestID);
  }

  /** A recovery is prepared once, under its own epoch and with its own body, without moving the position. */
  lemma PrepareSays(s: Store, agent: GRN, i: nat, requestID: string, epoch: string)
    requires RecoveriesOk(s.recoveries) && IsRecovery(s, agent, i, requestID)
    ensures var body := RecoveryBody(requestID, epoch);
            var (t, answer) := PrepareRecovery(s, agent, requestID, epoch, body);
            var r := s.recoveries[agent][i];
            if r.epoch != epoch then t == s && answer == Err(RecoveryEpoch)
            else if r.stage != RecoveryRequested then t == s && answer == Ok(r)
            else
              var prepared := r.(stage := RecoveryPrepared, body := body);
              && OnlyRecovery(s, t, agent, i, prepared) && answer == Ok(prepared) && t == s.(recoveries := t.recoveries)
  {
    IndexIs(s, agent, i, requestID);
    assert StagedOk(s.recoveries[agent][i]) by {
      assert RecoveryListOk(agent, s.recoveries[agent]);
    }
  }

  lemma UnknownRecoverySays(s: Store, agent: GRN, requestID: string, epoch: string, lineage: string)
    requires forall i :: !IsRecovery(s, agent, i, requestID)
    ensures FinalizeRecovery(s, agent, requestID, lineage) == (s, Err(NotFound))
    ensures PrepareRecovery(s, agent, requestID, epoch, RecoveryBody(requestID, epoch)) == (s, Err(NotFound))
  {
    var rs := At(s.recoveries, agent);
    assert forall k | 0 <= k < |rs| :: IsRecovery(s, agent, k, rs[k].requestID);
  }

  ghost predicate OpenedUnder(s: Store, agent: GRN, i: int, key: RequestKey) {
    agent in s.recoveries && 0 <= i < |s.recoveries[agent]| && s.recoveries[agent][i].key == key
  }

  /** A console request opens one recovery, the agent's last, at a new position; is answered it ever after;
      and opens none under an id used before, nor beside one not finalized. */
  lemma OpenSays(s: Store, r: Recovery)
    requires RecoveriesOk(s.recoveries)
    ensures var (t, answer) := RecordRecovery(s, r);
            var rs := At(s.recoveries, r.agent);
            && (forall agent, i | OpenedUnder(s, agent, i, r.key) :: t == s && answer == Ok((s.recoveries[agent][i], false)))
            && ((forall agent, i :: !OpenedUnder(s, agent, i, r.key)) ==>
                  if exists i | 0 <= i < |rs| :: rs[i].requestID == r.requestID then t == s && answer == Err(RequestReused)
                  else if exists i | 0 <= i < |rs| :: rs[i].stage != RecoveryFinalized then t == s && answer == Err(RecoveryOpen)
                  else answer == Ok((r, true)) && t == s.(recoveries := s.recoveries[r.agent := rs + [r]], position := s.position + 1))
  {
    var rs := At(s.recoveries, r.agent);
    if r.agent in s.recoveries {
      OpenIsLast(r.agent, rs);
    }
    assert forall agent, i :: OpenedUnder(s, agent, i, r.key) <==> RecoveryAt(s, agent, i, r.key);
    assert forall agent, i :: OpenedUnder(s, agent, i, r.key) <==> KeyAt(s.recoveries, agent, i, r.key);
  }

  // ---- Stops ----

  ghost predicate Stopping(s: Store, agent: GRN, key: RequestKey) {
    key in s.stops && s.stops[key].agent == agent && s.stops[key].start.None?
  }

  /** A stop is stored as given, at a new position, where none holds the agent; a repeat is answered. */
  lemma StopSays(s: Store, stop: Stop)
    ensures var (t, answer) := RecordStop(s, stop);
            var stored := stop.(deactivated := false, start := None);
            && (stop.key in s.stops ==> t == s && answer == Ok((s.stops[stop.key], false)))
            && (stop.key !in s.stops && (exists key :: Stopping(s, stop.agent, key)) ==> t == s && answer == Err(AgentStopped))
            && (stop.key !in s.stops && !(exists key :: Stopping(s, stop.agent, key)) ==>
                  answer == Ok((stored, true)) && t == s.(stops := s.stops[stop.key := stored], position := s.position + 1))
  {
    assert forall key :: Stopping(s, stop.agent, key) <==> HoldsAgent(s, stop.agent, key);
  }

  lemma DeactivationSays(s: Store, key: RequestKey)
    ensures var (t, answer) := RecordDeactivation(s, key);
            if key in s.stops then answer == Ok(()) && t == s.(stops := s.stops[key := s.stops[key].(deactivated := true)])
            else t == s && answer == Err(NotFound)
  {
  }

  /** A start ends the one stop that holds the agent, under its own key and binding, at a new position; is
      answered that stop ever after; and ends none where none holds it. */
  lemma StartSays(s: Store, agent: GRN, end: StopEnd)
    requires StopsOk(s.stops, s.stopEnds)
    ensures var (t, answer) := RecordStart(s, agent, end);
            && (end.key in s.stopEnds ==> t == s && s.stopEnds[end.key] in s.stops && answer == Ok(s.stops[s.stopEnds[end.key]]))
            && (end.key !in s.stopEnds && (forall key :: !Stopping(s, agent, key)) ==> t == s && answer == Err(AgentNotStopped))
            && (forall key | end.key !in s.stopEnds && Stopping(s, agent, key) ::
                  && answer == Ok(s.stops[key].(start := Some(end)))
                  && t == s.(stops := s.stops[key := s.stops[key].(start := Some(end))],
                             stopEnds := s.stopEnds[end.key := key], position := s.position + 1))
  {
    assert forall key :: Stopping(s, agent, key) <==> HoldsAgent(s, agent, key);
    assert forall key :: Stopping(s, agent, key) <==> Holds(s.stops, agent, key);
    if end.key in s.stopEnds {
      assert EndKept(s.stops, end.key, s.stopEnds[end.key]);
    }
  }
}
