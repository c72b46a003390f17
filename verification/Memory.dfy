/**
  The store as it runs in process: its maps are fields its methods replace, and what it finds by key
  or agent it finds by walking a map in no order. Each method leaves the store, and answers, as the
  function that specifies it says (Store), whatever order the map was walked in.
 */
module Memory {
  import opened Options
  import opened Domain
  import opened Store
  import Spec = Store
  import opened StoreSafety
  import opened StoreHistory
  import opened Feed

  /** What every store is: behind a quantifier, so that a method unfolds it only where it opens it. */
  ghost predicate Sound(s: Store) {
    forall shown: bool :: SoundWhen(shown, s)
  }

  ghost predicate SoundWhen(shown: bool, s: Store) {
    shown ==> StoreOk(s) && Keyed(s.activations)
  }

  lemma OpenSound(s: Store)
    requires Sound(s)
    ensures StoreOk(s) && Keyed(s.activations)
  {
    assert SoundWhen(true, s);
  }

  lemma CloseSound(s: Store)
    requires StoreOk(s) && Keyed(s.activations)
    ensures Sound(s)
  {
  }

  /** What an operation leaves is a store like any other. */
  lemma Stepped(s: Store, op: Op)
    requires Sound(s) && Permitted(s, op)
    ensures Sound(Apply(s, op))
  {
    OpenSound(s);
    ApplyKeeps(s, op);
    ApplyKeyed(s, op);
    CloseSound(Apply(s, op));
  }

  lemma PublishSound(s: Store, organization: string, name: string, settings: Settings)
    requires Sound(s)
    ensures Sound(Spec.PublishProfile(s, organization, name, settings).0)
  {
    Stepped(s, OpPublish(organization, name, settings));
  }

  lemma PublishVersionSound(s: Store, organization: string, ref: ProfileRef, settings: Settings)
    requires Sound(s) && ref.version >= 1
    ensures Sound(Spec.PublishProfileVersion(s, organization, ref, settings).0)
  {
    Stepped(s, OpPublishVersion(organization, ref, settings));
  }

  lemma ConfigureSound(s: Store, r: Request, d: Definition)
    requires Sound(s) && Permitted(s, OpConfigure(r, d))
    ensures Sound(Spec.Configure(s, r, d).0)
  {
    Stepped(s, OpConfigure(r, d));
  }

  lemma BeginCreationSound(s: Store, c: Creation)
    requires Sound(s)
    ensures Sound(Spec.BeginCreation(s, c).0)
  {
    Stepped(s, OpBeginCreation(c));
  }

  lemma RegisterCreationSound(s: Store, key: RequestKey, d: Definition)
    requires Sound(s) && Permitted(s, OpRegisterCreation(key, d))
    ensures Sound(Spec.RegisterCreation(s, key, d).0)
  {
    Stepped(s, OpRegisterCreation(key, d));
  }

  lemma FailCreationSound(s: Store, key: RequestKey, failed: Outcome)
    requires Sound(s) && failed.Failed?
    ensures Sound(Spec.FailCreation(s, key, failed).0)
  {
    Stepped(s, OpFailCreation(key, failed));
  }

  lemma RegisterPlacementSound(s: Store, input: PlacementInput)
    requires Sound(s)
    ensures Sound(Spec.RegisterPlacement(s, input).0)
  {
    Stepped(s, OpRegisterPlacement(input));
  }

  lemma InsertActivationSound(s: Store, a: Activation)
    requires Sound(s) && a.activationID == ""
    ensures Sound(Spec.InsertActivation(s, a).0)
  {
    Stepped(s, OpInsertActivation(a));
  }

  lemma RecordActivationSound(s: Store, agent: GRN, requestID: string, activationID: string)
    requires Sound(s)
    ensures Sound(Spec.RecordActivation(s, agent, requestID, activationID).0)
  {
    Stepped(s, OpRecordActivation(agent, requestID, activationID));
  }

  lemma OpenRecoverySound(s: Store, recovery: Recovery)
    requires Sound(s) && Permitted(s, OpOpenRecovery(recovery))
    ensures Sound(Spec.RecordRecovery(s, recovery).0)
  {
    Stepped(s, OpOpenRecovery(recovery));
  }

  lemma PrepareRecoverySound(s: Store, agent: GRN, requestID: string, epoch: string)
    requires Sound(s)
    ensures Sound(Spec.PrepareRecovery(s, agent, requestID, epoch, RecoveryBody(requestID, epoch)).0)
  {
    Stepped(s, OpPrepareRecovery(agent, requestID, epoch));
  }

  lemma FinalizeRecoverySound(s: Store, agent: GRN, requestID: string, lineage: string)
    requires Sound(s)
    ensures Sound(Spec.FinalizeRecovery(s, agent, requestID, lineage).0)
  {
    Stepped(s, OpFinalizeRecovery(agent, requestID, lineage));
  }

  lemma RecordStopSound(s: Store, stop: Stop)
    requires Sound(s)
    ensures Sound(Spec.RecordStop(s, stop).0)
  {
    Stepped(s, OpRecordStop(stop));
  }

  lemma RecordDeactivationSound(s: Store, key: RequestKey)
    requires Sound(s)
    ensures Sound(Spec.RecordDeactivation(s, key).0)
  {
    Stepped(s, OpRecordDeactivation(key));
  }

  lemma RecordStartSound(s: Store, agent: GRN, end: StopEnd)
    requires Sound(s)
    ensures Sound(Spec.RecordStart(s, agent, end).0)
  {
    Stepped(s, OpRecordStart(agent, end));
  }

  class Memory {
    var profiles: map<Named, seq<Settings>>
    var definitions: map<GRN, seq<Definition>>
    var positions: map<GRN, seq<Position>>
    var position: Position
    var creations: map<RequestKey, Creation>
    var requests: map<RequestKey, Request>
    var placements: map<GRN, map<string, Placement>>
    var activations: map<GRN, map<string, Activation>>
    var latest: map<GRN, string>
    var applied: map<GRN, RuntimeApplied>
    var recoveries: map<GRN, seq<Recovery>>
    var stops: map<RequestKey, Stop>
    var stopEnds: map<RequestKey, RequestKey>

    ghost function Snap(): Store
      reads this
    {
      Store(profiles, definitions, positions, position, creations, requests, placements, activations, latest, applied,
            recoveries, stops, stopEnds)
    }

    ghost predicate Valid()
      reads this
    {
      Sound(Snap())
    }

    constructor ()
      ensures Valid() && Snap() == EMPTY
    {
      profiles, definitions, positions, position := map[], map[], map[], 0;
      creations, requests, placements := map[], map[], map[];
      activations, latest, applied := map[], map[], map[];
      recoveries, stops, stopEnds := map[], map[], map[];
      new;
      EmptyOk();
      CloseSound(EMPTY);
    }

    // ---- Profiles ----

    method PublishProfile(organization: string, name: string, settings: Settings) returns (version: Version)
      requires Valid()
      modifies this
      ensures (Snap(), version) == Spec.PublishProfile(old(Snap()), organization, name, settings)
      ensures Valid()
    {
      PublishSound(Snap(), organization, name, settings);
      var key := Named(organization, name);
      version := |At(profiles, key)| + 1;
      profiles := profiles[key := At(profiles, key) + [settings]];
    }

    method PublishProfileVersion(organization: string, ref: ProfileRef, settings: Settings) returns (r: Result<bool, Error>)
      requires Valid() && ref.version >= 1
      modifies this
      ensures (Snap(), r) == Spec.PublishProfileVersion(old(Snap()), organization, ref, settings)
      ensures Valid()
    {
      PublishVersionSound(Snap(), organization, ref, settings);
      var key := Named(organization, ref.name);
      var versions := At(profiles, key);
      if ref.version <= |versions| {
        return if versions[ref.version - 1] != settings then Err(ProfileVersionConflict) else Ok(false);
      }
      if ref.version != |versions| + 1 {
        return Err(ProfileVersionGap);
      }
      profiles := profiles[key := versions + [settings]];
      r := Ok(true);
    }

    // ---- Revisions ----

    method AppendLocked(d: Definition) returns (ok: bool)
      modifies this
      ensures ok <==> Append(old(Snap()), d).Some?
      ensures Snap() == if ok then Append(old(Snap()), d).value else old(Snap())
    {
      var revisions := At(definitions, d.agent);
      if d.revision != |revisions| + 1 {
        return false;
      }
      position := position + 1;
      definitions := definitions[d.agent := revisions + [d]];
      positions := positions[d.agent := At(positions, d.agent) + [position]];
      ok := true;
    }

    method Configure(r: Request, d: Definition) returns (answer: Result<Request, Error>)
      requires Valid() && Permitted(Snap(), OpConfigure(r, d))
      modifies this
      ensures (Snap(), answer) == Spec.Configure(old(Snap()), r, d)
      ensures Valid()
    {
      ConfigureSound(Snap(), r, d);
      if r.key in requests {
        return Ok(requests[r.key]);
      }
      var revisions := At(definitions, d.agent);
      if revisions == [] || revisions[0].organization != d.organization {
        return Err(NotFound);
      }
      var stored := r.(outcome := Stale);
      var appended := AppendLocked(d);
      if appended {
        stored := r.(outcome := Applied(d.revision));
      }
      StoreRequest(stored);
      answer := Ok(stored);
    }

    method StoreRequest(r: Request)
      modifies this
      ensures Snap() == old(Snap()).(requests := old(requests)[r.key := r])
    {
      requests := requests[r.key := r];
    }

    method ConfigureReference(agent: GRN, revision: Revision) returns (answer: Result<string, Error>)
      requires Valid()
      ensures answer == Spec.ConfigureReference(Snap(), agent, revision)
    {
      OpenSound(Snap());
      assert forall k :: AppliedBy(Snap(), agent, revision, k) <==> AppliedKey(requests, agent, revision, k);
      var keys := requests.Keys;
      while keys != {}
        invariant keys <= requests.Keys
        invariant forall k | AppliedKey(requests, agent, revision, k) :: k in keys
      {
        var k :| k in keys;
        if requests[k].outcome == Applied(revision) && requests[k].agent == agent {
          assert AppliedKey(requests, agent, revision, k);
          return Ok(requests[k].binding.operationRef);
        }
        keys := keys - {k};
      }
      answer := Err(NotFound);
    }

    /** What an agent owes a controller, if it is assigned to it. */
    method OwedBy(agent: GRN, operator: string) returns (owed: Option<Owed>)
      requires Valid() && agent in definitions
      ensures owed.Some? ==> OwedFor(Snap(), operator, agent, owed.value)
      ensures owed.None? ==> forall o :: !OwedFor(Snap(), operator, agent, o)
    {
      OpenSound(Snap());
      AllShowable(Snap(), agent);
      var revisions := definitions[agent];
      var d := revisions[|revisions| - 1];
      if d.assignment.None? || d.assignment.value.operator != operator {
        return None;
      }
      var settings := profiles[Named(d.organization, d.profile.name)][d.profile.version - 1];
      var stop := CurrentStopLocked(agent);
      var open := OpenRecoveryLocked(agent);
      owed := Some(Owed(DesiredRevision(d, settings, stop.Some?, open), positions[agent][|revisions| - 1]));
    }

    /** Everything a controller is owed, in the order the map was walked in. */
    method FindOwed(operator: string) returns (found: seq<Owed>)
      requires Valid()
      ensures Apart(found) && forall o :: o in found <==> IsOwed(Snap(), operator, o)
    {
      found := [];
      var agents := definitions.Keys;
      while agents != {}
        invariant agents <= definitions.Keys
        invariant forall o :: o in found <==> exists agent :: agent !in agents && OwedFor(Snap(), operator, agent, o)
        invariant Apart(found)
      {
        var agent :| agent in agents;
        var owed := OwedBy(agent, operator);
        if owed.Some? {
          OpenSound(Snap());
          NewApart(Snap(), operator, agents, agent, owed.value, found);
          found := found + [owed.value];
        }
        agents := agents - {agent};
      }
    }

    /** The page a controller is answered, found in no order and then put in the order stored. */
    method Desired(operator: string, limit: nat) returns (page: DesiredPage)
      requires Valid()
      ensures IsPage(Snap(), operator, limit, page)
    {
      var found := FindOwed(operator);
      var sorted := SortByPosition(found);
      assert AllOwed(Snap(), operator, sorted);
      page := DesiredPage(position, Revisions(Capped(sorted, limit)));
    }

    method GetDefinition(agent: GRN) returns (r: Result<Definition, Error>)
      ensures r == Spec.GetDefinition(Snap(), agent)
    {
      var revisions := At(definitions, agent);
      r := if revisions == [] then Err(NotFound) else Ok(revisions[|revisions| - 1]);
    }

    // ---- Creations ----

    method BeginCreation(c: Creation) returns (stored: Creation)
      requires Valid()
      modifies this
      ensures (Snap(), stored) == Spec.BeginCreation(old(Snap()), c)
      ensures Valid()
    {
      BeginCreationSound(Snap(), c);
      if c.key in creations {
        return creations[c.key];
      }
      stored := c.(outcome := Pending);
      creations := creations[c.key := stored];
    }

    method RegisterCreation(key: RequestKey, d: Definition) returns (r: Result<(Creation, bool), Error>)
      requires Valid() && Permitted(Snap(), OpRegisterCreation(key, d))
      modifies this
      ensures (Snap(), r) == Spec.RegisterCreation(old(Snap()), key, d)
      ensures Valid()
    {
      RegisterCreationSound(Snap(), key, d);
      if key !in creations {
        return Err(NotFound);
      }
      var c := creations[key];
      if c.outcome != Pending {
        return Ok((c, false));
      }
      var appended := AppendLocked(d);
      if !appended {
        return Err(StaleRevision);
      }
      c := c.(outcome := Registered(d.agent, d.assignment.value.epoch));
      creations := creations[key := c];
      r := Ok((c, true));
    }

    method FailCreation(key: RequestKey, failed: Outcome) returns (r: Result<Creation, Error>)
      requires Valid() && failed.Failed?
      modifies this
      ensures (Snap(), r) == Spec.FailCreation(old(Snap()), key, failed)
      ensures Valid()
    {
      FailCreationSound(Snap(), key, failed);
      if key !in creations {
        return Err(NotFound);
      }
      var c := creations[key];
      if c.outcome != Pending {
        return Ok(c);
      }
      c := c.(outcome := failed);
      creations := creations[key := c];
      r := Ok(c);
    }

    method CreationOf(agent: GRN) returns (r: Result<Creation, Error>)
      requires Valid()
      ensures r == Spec.CreationOf(Snap(), agent)
    {
      OpenSound(Snap());
      assert forall k :: CreatedBy(Snap(), agent, k) <==> CreatedKey(creations, agent, k);
      var keys := creations.Keys;
      while keys != {}
        invariant keys <= creations.Keys
        invariant forall k | CreatedKey(creations, agent, k) :: k in keys
      {
        var k :| k in keys;
        if creations[k].outcome.Registered? && creations[k].outcome.agent == agent {
          assert CreatedKey(creations, agent, k);
          return Ok(creations[k]);
        }
        keys := keys - {k};
      }
      r := Err(NotFound);
    }

    // ---- Placements ----

    /** The agent's placement not superseded: the last found where there were more. */
    method CurrentLocked(agent: GRN) returns (current: Option<Placement>)
      requires Valid()
      ensures current == Current(In(placements, agent))
    {
      OpenSound(Snap());
      var ps := In(placements, agent);
      assert OnePath(ps) by {
        assert agent !in placements ==> IsPath(ps, []);
      }
      ghost var path :| IsPath(ps, path);
      PathCurrent(ps, path);
      current := None;
      var uids := ps.Keys;
      while uids != {}
        invariant uids <= ps.Keys
        invariant current == if path != [] && Last(path) !in uids then Some(ps[Last(path)]) else None
      {
        var uid :| uid in uids;
        assert IsCurrent(ps, uid) <==> path != [] && uid == Last(path);
        if !ps[uid].superseded {
          current := Some(ps[uid]);
        }
        uids := uids - {uid};
      }
    }

    method RegisterPlacement(input: PlacementInput) returns (r: Result<(Placement, bool), Error>)
      requires Valid()
      modifies this
      ensures (Snap(), r) == Spec.RegisterPlacement(old(Snap()), input)
      ensures Valid()
    {
      RegisterPlacementSound(Snap(), input);
      var stored := In(placements, input.agent);
      var current := CurrentLocked(input.agent);
      var same := if input.request.podUID in stored then Some(stored[input.request.podUID]) else None;
      var action := DecidePlacement(current, same, input);
      if action.Err? {
        return Err(action.error);
      }
      if action.value == PlacementRepeat {
        return if same.Some? then Ok((same.value, false)) else Err(NotFound);
      }
      if current.Some? {
        stored := stored[current.value.request.podUID := current.value.(superseded := true)];
      }
      var p := Placement(input.agent, input.controller, input.request, false);
      stored := stored[p.request.podUID := p];
      placements := placements[input.agent := stored];
      r := Ok((p, true));
    }

    // ---- Activations ----

    method InsertActivation(a: Activation) returns (stored: Activation)
      requires Valid() && a.activationID == ""
      modifies this
      ensures (Snap(), stored) == Spec.InsertActivation(old(Snap()), a)
      ensures Valid()
    {
      InsertActivationSound(Snap(), a);
      var held := In(activations, a.agent);
      if a.request.requestID in held {
        return held[a.request.requestID];
      }
      activations := activations[a.agent := held[a.request.requestID := a]];
      stored := a;
    }

    method RecordActivation(agent: GRN, requestID: string, activationID: string) returns (r: Result<(), Error>)
      requires Valid()
      modifies this
      ensures (Snap(), r) == Spec.RecordActivation(old(Snap()), agent, requestID, activationID)
      ensures Valid()
    {
      RecordActivationSound(Snap(), agent, requestID, activationID);
      var held := In(activations, agent);
      if requestID !in held {
        return Err(NotFound);
      }
      var a := held[requestID];
      if a.activationID != "" && a.activationID != activationID {
        return Err(ActivationMismatch);
      }
      StoreAnswer(agent, requestID, a.(activationID := activationID));
      r := Ok(());
    }

    method StoreAnswer(agent: GRN, requestID: string, a: Activation)
      modifies this
      ensures Snap() == old(Snap()).(activations := old(activations)[agent := In(old(activations), agent)[requestID := a]],
                                     latest := old(latest)[agent := a.activationID])
    {
      activations := activations[agent := In(activations, agent)[requestID := a]];
      latest := latest[agent := a.activationID];
    }

    method LatestActivation(agent: GRN) returns (r: Result<string, Error>)
      ensures r == Spec.LatestActivation(Snap(), agent)
    {
      r := if agent in latest then Ok(latest[agent]) else Err(NotFound);
    }

    // ---- Recoveries ----

    /** Walks every agent's recoveries, in no order of agents, for the one opened under a key. */
    method RecoveryUnder(key: RequestKey) returns (found: Option<Recovery>)
      requires Valid()
      ensures found.Some? ==> forall r: Recovery | r.key == key :: Spec.RecordRecovery(Snap(), r) == (Snap(), Ok((found.value, false)))
      ensures found.None? ==> forall agent, i :: !RecoveryAt(Snap(), agent, i, key)
    {
      OpenSound(Snap());
      var agents := recoveries.Keys;
      while agents != {}
        invariant agents <= recoveries.Keys
        invariant forall agent, i | RecoveryAt(Snap(), agent, i, key) :: agent in agents
      {
        var agent :| agent in agents;
        var rs := recoveries[agent];
        for i := 0 to |rs|
          invariant forall j | 0 <= j < i :: rs[j].key != key
        {
          if rs[i].key == key {
            UnderKey(Snap(), key, agent, i);
            return Some(rs[i]);
          }
        }
        agents := agents - {agent};
      }
      found := None;
    }

    method RecoveryLocked(agent: GRN, requestID: string) returns (i: Option<nat>)
      ensures i == RecoveryIndex(At(recoveries, agent), requestID)
    {
      var rs := At(recoveries, agent);
      i := None;
      for k := 0 to |rs|
        invariant i == RecoveryIndex(rs[..k], requestID)
      {
        assert rs[..k + 1][..k] == rs[..k];
        if i.None? && rs[k].requestID == requestID {
          i := Some(k);
        }
      }
      assert rs[..|rs|] == rs;
    }

    method OpenRecoveryLocked(agent: GRN) returns (open: Option<OpenRecovery>)
      ensures open == OpenIn(At(recoveries, agent))
    {
      var rs := At(recoveries, agent);
      open := None;
      for k := 0 to |rs|
        invariant open == OpenIn(rs[..k])
      {
        assert rs[..k + 1][..k] == rs[..k];
        if open.None? && rs[k].stage != RecoveryFinalized {
          open := Some(OpenRecovery(rs[k].requestID, rs[k].epoch));
        }
      }
      assert rs[..|rs|] == rs;
    }

    method RecordRecovery(recovery: Recovery) returns (r: Result<(Recovery, bool), Error>)
      requires Valid() && Permitted(Snap(), OpOpenRecovery(recovery))
      modifies this
      ensures (Snap(), r) == Spec.RecordRecovery(old(Snap()), recovery)
      ensures Valid()
    {
      OpenRecoverySound(Snap(), recovery);
      var stored := RecoveryUnder(recovery.key);
      if stored.Some? {
        return Ok((stored.value, false));
      }
      NotUnderKey(Snap(), recovery);
      ghost var was := Snap();
      r := OpenUnused(recovery);
      assert (Snap(), r) == Opened(was, recovery);
    }

    /** Opens a recovery whose console request opened none. */
    method OpenUnused(recovery: Recovery) returns (r: Result<(Recovery, bool), Error>)
      modifies this
      ensures (Snap(), r) == Opened(old(Snap()), recovery)
    {
      var index := RecoveryLocked(recovery.agent, recovery.requestID);
      if index.Some? {
        return Err(RequestReused);
      }
      var open := OpenRecoveryLocked(recovery.agent);
      if open.Some? {
        return Err(RecoveryOpen);
      }
      AddRecovery(recovery);
      r := Ok((recovery, true));
    }

    method AddRecovery(recovery: Recovery)
      modifies this
      ensures Snap() == Added(old(Snap()), recovery)
    {
      recoveries := recoveries[recovery.agent := At(recoveries, recovery.agent) + [recovery]];
      position := position + 1;
    }

    method LatestRecovery(agent: GRN) returns (r: Result<Recovery, Error>)
      ensures r == Spec.LatestRecovery(Snap(), agent)
    {
      var rs := At(recoveries, agent);
      r := if rs == [] then Err(NotFound) else Ok(rs[|rs| - 1]);
    }

    method PrepareRecovery(agent: GRN, requestID: string, epoch: string, body: Body) returns (answer: Result<Recovery, Error>)
      requires Valid() && body == RecoveryBody(requestID, epoch)
      modifies this
      ensures (Snap(), answer) == Spec.PrepareRecovery(old(Snap()), agent, requestID, epoch, body)
      ensures Valid()
    {
      PrepareRecoverySound(Snap(), agent, requestID, epoch);
      var i := RecoveryLocked(agent, requestID);
      if i.None? {
        return Err(NotFound);
      }
      var r := recoveries[agent][i.value];
      if r.epoch != epoch {
        return Err(RecoveryEpoch);
      }
      if r.stage == RecoveryRequested {
        r := r.(stage := RecoveryPrepared, body := body);
        recoveries := recoveries[agent := recoveries[agent][i.value := r]];
      } else if r.body != body {
        return Err(if r.stage == RecoveryFinalized then RecoveryStageMismatch else RequestReused);
      }
      answer := Ok(r);
    }

    method FinalizeRecovery(agent: GRN, requestID: string, lineage: string) returns (answer: Result<Recovery, Error>)
      requires Valid()
      modifies this
      ensures (Snap(), answer) == Spec.FinalizeRecovery(old(Snap()), agent, requestID, lineage)
      ensures Valid()
    {
      FinalizeRecoverySound(Snap(), agent, requestID, lineage);
      var i := RecoveryLocked(agent, requestID);
      if i.None? {
        return Err(NotFound);
      }
      var r := recoveries[agent][i.value];
      match r.stage {
        case RecoveryFinalized =>
        case RecoveryPrepared =>
          r := r.(stage := RecoveryFinalized, recovered := Some(lineage));
          recoveries := recoveries[agent := recoveries[agent][i.value := r]];
          position := position + 1;
        case RecoveryRequested => return Err(RecoveryStageMismatch);
      }
      answer := Ok(r);
    }

    // ---- Stops ----

    method CurrentStopLocked(agent: GRN) returns (current: Option<Stop>)
      requires Valid()
      ensures current == CurrentStop(Snap(), agent)
      ensures current.Some? <==> IsStopped(Snap(), agent)
    {
      OpenSound(Snap());
      assert forall k :: HoldsAgent(Snap(), agent, k) <==> Holds(stops, agent, k);
      var keys := stops.Keys;
      while keys != {}
        invariant keys <= stops.Keys
        invariant forall k | Holds(stops, agent, k) :: k in keys
      {
        var k :| k in keys;
        if stops[k].agent == agent && stops[k].start.None? {
          assert HoldsAgent(Snap(), agent, k);
          return Some(stops[k]);
        }
        keys := keys - {k};
      }
      current := None;
    }

    method RecordStop(stop: Stop) returns (r: Result<(Stop, bool), Error>)
      requires Valid()
      modifies this
      ensures (Snap(), r) == Spec.RecordStop(old(Snap()), stop)
      ensures Valid()
    {
      RecordStopSound(Snap(), stop);
      if stop.key in stops {
        return Ok((stops[stop.key], false));
      }
      var current := CurrentStopLocked(stop.agent);
      if current.Some? {
        return Err(AgentStopped);
      }
      var stored := stop.(deactivated := false, start := None);
      stops := stops[stop.key := stored];
      position := position + 1;
      r := Ok((stored, true));
    }

    method RecordDeactivation(key: RequestKey) returns (r: Result<(), Error>)
      requires Valid()
      modifies this
      ensures (Snap(), r) == Spec.RecordDeactivation(old(Snap()), key)
      ensures Valid()
    {
      RecordDeactivationSound(Snap(), key);
      if key !in stops {
        return Err(NotFound);
      }
      stops := stops[key := stops[key].(deactivated := true)];
      r := Ok(());
    }

    method RecordStart(agent: GRN, end: StopEnd) returns (r: Result<Stop, Error>)
      requires Valid()
      modifies this
      ensures (Snap(), r) == Spec.RecordStart(old(Snap()), agent, end)
      ensures Valid()
    {
      RecordStartSound(Snap(), agent, end);
      if end.key in stopEnds {
        OpenSound(Snap());
        EndedOnce(Snap(), agent, end);
        return Ok(stops[stopEnds[end.key]]);
      }
      NotEnded(Snap(), agent, end);
      var current := CurrentStopLocked(agent);
      if current.None? {
        return Err(AgentNotStopped);
      }
      EndStop(current.value, end);
      r := Ok(current.value.(start := Some(end)));
    }

    method EndStop(stop: Stop, end: StopEnd)
      modifies this
      ensures Snap() == Ended(old(Snap()), stop, end)
    {
      stops := stops[stop.key := stop.(start := Some(end))];
      stopEnds := stopEnds[end.key := stop.key];
      position := position + 1;
    }
  }

  // ---- What the walks rest on ----

  lemma UnderKey(s: Store, key: RequestKey, agent: GRN, i: nat)
    requires RecoveriesOk(s.recoveries) && RecoveryAt(s, agent, i, key)
    ensures forall r: Recovery | r.key == key :: Spec.RecordRecovery(s, r) == (s, Ok((s.recoveries[agent][i], false)))
  {
    forall b, j | RecoveryAt(s, b, j, key)
      ensures b == agent && j == i
    {
      assert KeyAt(s.recoveries, agent, i, key) && KeyAt(s.recoveries, b, j, key);
    }
  }

  lemma NotUnderKey(s: Store, r: Recovery)
    requires forall agent, i :: !RecoveryAt(s, agent, i, r.key)
    ensures Spec.RecordRecovery(s, r) == Opened(s, r)
  {
  }

  function Opened(s: Store, r: Recovery): (Store, Result<(Recovery, bool), Error>) {
    if RecoveryIndex(At(s.recoveries, r.agent), r.requestID).Some? then (s, Err(RequestReused))
    else if OpenIn(At(s.recoveries, r.agent)).Some? then (s, Err(RecoveryOpen))
    else (Added(s, r), Ok((r, true)))
  }

  function Added(s: Store, r: Recovery): Store {
    s.(recoveries := s.recoveries[r.agent := At(s.recoveries, r.agent) + [r]], position := s.position + 1)
  }

  lemma NotEnded(s: Store, agent: GRN, end: StopEnd)
    requires end.key !in s.stopEnds
    ensures Spec.RecordStart(s, agent, end) ==
              match CurrentStop(s, agent)
              case None => (s, Err(AgentNotStopped))
              case Some(stop) => (Ended(s, stop, end), Ok(stop.(start := Some(end))))
  {
  }

  function Ended(s: Store, stop: Stop, end: StopEnd): Store {
    s.(stops := s.stops[stop.key := stop.(start := Some(end))], stopEnds := s.stopEnds[end.key := stop.key],
       position := s.position + 1)
  }

  lemma EndedOnce(s: Store, agent: GRN, end: StopEnd)
    requires StopsOk(s.stops, s.stopEnds) && end.key in s.stopEnds
    ensures s.stopEnds[end.key] in s.stops
    ensures Spec.RecordStart(s, agent, end) == (s, Ok(s.stops[s.stopEnds[end.key]]))
  {
    assert EndKept(s.stops, end.key, s.stopEnds[end.key]);
  }

  ghost predicate Apart(owed: seq<Owed>) {
    forall i, j | 0 <= i < j < |owed| :: owed[i].position != owed[j].position
  }

  /** Two agents' latest revisions took two positions. */
  lemma NewApart(s: Store, operator: string, agents: set<GRN>, agent: GRN, owed: Owed, found: seq<Owed>)
    requires StoreOk(s) && agent in agents && OwedFor(s, operator, agent, owed) && Apart(found)
    requires forall o | o in found :: exists other :: other !in agents && OwedFor(s, operator, other, o)
    ensures Apart(found + [owed])
  {
    forall i | 0 <= i < |found|
      ensures found[i].position != owed.position
    {
      var o := found[i];
      assert o in found;
      var other :| other !in agents && OwedFor(s, operator, other, o);
      assert s.positions[other][|s.positions[other]| - 1] != s.positions[agent][|s.positions[agent]| - 1];
    }
  }

  /** Puts each entry before the first of a greater position. */
  method SortByPosition(found: seq<Owed>) returns (sorted: seq<Owed>)
    requires Apart(found)
    ensures InOrder(sorted) && forall o :: o in sorted <==> o in found
  {
    sorted := [];
    for i := 0 to |found|
      invariant InOrder(sorted)
      invariant forall o :: o in sorted <==> o in found[..i]
    {
      var k := 0;
      while k < |sorted| && sorted[k].position < found[i].position
        invariant 0 <= k <= |sorted|
        invariant forall j | 0 <= j < k :: sorted[j].position < found[i].position
      {
        k := k + 1;
      }
      InsertKeepsOrder(sorted, k, found[i], found, i);
      sorted := sorted[..k] + [found[i]] + sorted[k..];
    }
  }

  lemma InsertKeepsOrder(sorted: seq<Owed>, k: nat, o: Owed, found: seq<Owed>, i: nat)
    requires Apart(found) && i < |found| && o == found[i] && k <= |sorted|
    requires InOrder(sorted) && forall x :: x in sorted <==> x in found[..i]
    requires forall j | 0 <= j < k :: sorted[j].position < o.position
    requires k < |sorted| ==> sorted[k].position >= o.position
    ensures InOrder(sorted[..k] + [o] + sorted[k..])
    ensures forall x :: x in sorted[..k] + [o] + sorted[k..] <==> x in found[..i + 1]
  {
    var next := sorted[..k] + [o] + sorted[k..];
    if k < |sorted| {
      assert sorted[k] in found[..i];
    }
    assert forall x :: x in next <==> x in sorted || x == o by {
      assert sorted == sorted[..k] + sorted[k..];
    }
    assert found[..i + 1] == found[..i] + [o];
  }
}
