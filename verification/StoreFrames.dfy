/** What each operation of the store leaves alone. */
module StoreFrames {
  import opened Options
  import opened Domain
  import opened Store

  lemma OpenFrame(s: Store, r: Recovery)
    ensures var s' := RecordRecovery(s, r).0;
            s' == s.(recoveries := s'.recoveries, position := s'.position) && s'.position >= s.position
  {
    var t := RecordRecovery(s, r).0;
    if t.position == s.position {
      assert t == s;
    } else {
      assert t == s.(recoveries := s.recoveries[r.agent := At(s.recoveries, r.agent) + [r]], position := s.position + 1);
    }
  }

  lemma PrepareFrame(s: Store, agent: GRN, requestID: string, epoch: string, body: Body)
    ensures var s' := PrepareRecovery(s, agent, requestID, epoch, body).0;
            s' == s.(recoveries := s'.recoveries, position := s'.position) && s'.position >= s.position
  {
    var t := PrepareRecovery(s, agent, requestID, epoch, body).0;
    assert t == s || t == WithRecovery(s, agent, RecoveryIndex(At(s.recoveries, agent), requestID).value,
                                       t.recoveries[agent][RecoveryIndex(At(s.recoveries, agent), requestID).value]);
  }

  lemma FinalizeFrame(s: Store, agent: GRN, requestID: string, lineage: string)
    ensures var s' := FinalizeRecovery(s, agent, requestID, lineage).0;
            s' == s.(recoveries := s'.recoveries, position := s'.position) && s'.position >= s.position
  {
    var t := FinalizeRecovery(s, agent, requestID, lineage).0;
    if t.position == s.position {
      assert t == s;
    } else {
      var i := RecoveryIndex(At(s.recoveries, agent), requestID).value;
      assert t == WithRecovery(s, agent, i, s.recoveries[agent][i].(stage := RecoveryFinalized, recovered := Some(lineage)))
                    .(position := s.position + 1);
    }
  }

  lemma StopFrame(s: Store, stop: Stop)
    ensures var s' := RecordStop(s, stop).0;
            s' == s.(stops := s'.stops, stopEnds := s'.stopEnds, position := s'.position) && s'.position >= s.position
  {
    var t := RecordStop(s, stop).0;
    if t.position == s.position {
      assert t == s;
    } else {
      assert t == s.(stops := s.stops[stop.key := stop.(deactivated := false, start := None)], position := s.position + 1);
    }
  }

  lemma DeactivationFrame(s: Store, key: RequestKey)
    ensures var s' := RecordDeactivation(s, key).0;
            s' == s.(stops := s'.stops, stopEnds := s'.stopEnds, position := s'.position) && s'.position >= s.position
  {
  }

  lemma StartFrame(s: Store, agent: GRN, end: StopEnd)
    ensures var s' := RecordStart(s, agent, end).0;
            s' == s.(stops := s'.stops, stopEnds := s'.stopEnds, position := s'.position) && s'.position >= s.position
  {
  }

  /** A configure stores its request, and appends its revision or does not. */
  lemma ConfigureParts(s: Store, r: Request, d: Definition)
    ensures var t := Configure(s, r, d).0;
            || t == s.(requests := t.requests)
            || (Append(s, d).Some? && t == Append(s, d).value.(requests := t.requests) && At(s.definitions, d.agent) != []
                && s.definitions[d.agent][0].organization == d.organization && r.key !in s.requests)
  {
  }

  predicate Publishes(op: Op) {
    op.OpPublish? || op.OpPublishVersion?
  }

  predicate Recovers(op: Op) {
    op.OpOpenRecovery? || op.OpPrepareRecovery? || op.OpFinalizeRecovery?
  }

  predicate Stops(op: Op) {
    op.OpRecordStop? || op.OpRecordDeactivation? || op.OpRecordStart?
  }

  predicate Activates(op: Op) {
    op.OpInsertActivation? || op.OpRecordActivation?
  }

  ghost predicate Frame(op: Op, s: Store, t: Store) {
    if Publishes(op) then t == s.(profiles := t.profiles)
    else if op.OpConfigure? then
      t == s.(definitions := t.definitions, positions := t.positions, position := t.position, requests := t.requests)
    else if op.OpRegisterCreation? then
      t == s.(definitions := t.definitions, positions := t.positions, position := t.position, creations := t.creations)
    else if Recovers(op) then t == s.(recoveries := t.recoveries, position := t.position)
    else if Stops(op) then t == s.(stops := t.stops, stopEnds := t.stopEnds, position := t.position)
    else if Activates(op) then t == s.(activations := t.activations, latest := t.latest)
    else t == s.(creations := t.creations, placements := t.placements, applied := t.applied)
  }

  lemma PublishVersionParts(s: Store, organization: string, ref: ProfileRef, settings: Settings)
    requires ref.version >= 1
    ensures var t := PublishProfileVersion(s, organization, ref, settings).0; t == s.(profiles := t.profiles)
  {
  }

  lemma RegisterParts(s: Store, key: RequestKey, d: Definition)
    requires d.assignment.Some?
    ensures var t := RegisterCreation(s, key, d).0;
            t == s || (Append(s, d).Some? && t == Append(s, d).value.(creations := t.creations))
  {
  }

  lemma PlacementParts(s: Store, input: PlacementInput)
    ensures var t := RegisterPlacement(s, input).0; t == s.(placements := t.placements)
  {
    var ps := In(s.placements, input.agent);
    var same := if input.request.podUID in ps then Some(ps[input.request.podUID]) else None;
    var action := DecidePlacement(Current(ps), same, input);
    if action == Ok(PlacementRegister) {
      assert RegisterPlacement(s, input).0 == s.(placements := s.placements[input.agent := Placed(ps, Current(ps), input)]);
    } else {
      assert RegisterPlacement(s, input).0 == s;
    }
  }

  lemma RecordActivationParts(s: Store, agent: GRN, requestID: string, activationID: string)
    ensures var t := RecordActivation(s, agent, requestID, activationID).0; t == s.(activations := t.activations, latest := t.latest)
  {
  }

  lemma PrepareParts(s: Store, agent: GRN, requestID: string, epoch: string, body: Body)
    ensures var t := PrepareRecovery(s, agent, requestID, epoch, body).0; t == s.(recoveries := t.recoveries)
  {
  }

  lemma StopParts(s: Store, stop: Stop)
    ensures var t := RecordStop(s, stop).0; t == s.(stops := t.stops, position := t.position)
  {
  }

  lemma RecoveryOpFrame(s: Store, op: Op)
    requires Permitted(s, op) && Recovers(op)
    ensures Frame(op, s, Apply(s, op))
  {
    match op {
      case OpOpenRecovery(r) => OpenFrame(s, r);
      case OpPrepareRecovery(agent, requestID, epoch) => PrepareParts(s, agent, requestID, epoch, RecoveryBody(requestID, epoch));
      case OpFinalizeRecovery(agent, requestID, lineage) => FinalizeFrame(s, agent, requestID, lineage);
    }
  }

  lemma StopOpFrame(s: Store, op: Op)
    requires Permitted(s, op) && Stops(op)
    ensures Frame(op, s, Apply(s, op))
  {
    match op {
      case OpRecordStop(stop) => StopParts(s, stop);
      case OpRecordDeactivation(key) => DeactivationFrame(s, key);
      case OpRecordStart(agent, end) => StartFrame(s, agent, end);
    }
  }

  lemma RevisionOpFrame(s: Store, op: Op)
    requires Permitted(s, op) && (Publishes(op) || op.OpConfigure? || op.OpRegisterCreation?)
    ensures Frame(op, s, Apply(s, op))
  {
    match op {
      case OpPublishVersion(organization, ref, settings) => PublishVersionParts(s, organization, ref, settings);
      case OpConfigure(r, d) => ConfigureParts(s, r, d);
      case OpRegisterCreation(key, d) => RegisterParts(s, key, d);
      case _ =>
    }
  }

  lemma ApplyFrame(s: Store, op: Op)
    requires Permitted(s, op)
    ensures Frame(op, s, Apply(s, op))
  {
    if Recovers(op) {
      RecoveryOpFrame(s, op);
    } else if Stops(op) {
      StopOpFrame(s, op);
    } else if Publishes(op) || op.OpConfigure? || op.OpRegisterCreation? {
      RevisionOpFrame(s, op);
    } else {
      match op {
        case OpRegisterPlacement(input) => PlacementParts(s, input);
        case OpRecordActivation(agent, requestID, activationID) => RecordActivationParts(s, agent, requestID, activationID);
        case _ =>
      }
    }
  }

  lemma OnlyProfiles(s: Store, t: Store)
    requires t == s.(profiles := t.profiles)
    ensures t.definitions == s.definitions && t.positions == s.positions && t.position == s.position && t.requests == s.requests
    ensures t.activations == s.activations && t.latest == s.latest && t.recoveries == s.recoveries && t.stops == s.stops
  {
  }

  lemma OnlyRevisions(s: Store, t: Store)
    requires t == s.(definitions := t.definitions, positions := t.positions, position := t.position, requests := t.requests)
             || t == s.(definitions := t.definitions, positions := t.positions, position := t.position, creations := t.creations)
    ensures t.profiles == s.profiles && t.activations == s.activations && t.latest == s.latest
    ensures t.recoveries == s.recoveries && t.stops == s.stops
  {
  }

  lemma OnlyCreations(s: Store, t: Store)
    requires t == s.(definitions := t.definitions, positions := t.positions, position := t.position, creations := t.creations)
    ensures t.requests == s.requests
  {
  }

  lemma OnlyRecoveries(s: Store, t: Store)
    requires t == s.(recoveries := t.recoveries, position := t.position)
    ensures t.profiles == s.profiles && t.definitions == s.definitions && t.positions == s.positions && t.requests == s.requests
    ensures t.activations == s.activations && t.latest == s.latest && t.stops == s.stops
  {
  }

  lemma OnlyStops(s: Store, t: Store)
    requires t == s.(stops := t.stops, stopEnds := t.stopEnds, position := t.position)
    ensures t.profiles == s.profiles && t.definitions == s.definitions && t.positions == s.positions && t.requests == s.requests
    ensures t.activations == s.activations && t.latest == s.latest && t.recoveries == s.recoveries
  {
  }

  lemma OnlyActivations(s: Store, t: Store)
    requires t == s.(activations := t.activations, latest := t.latest)
    ensures t.profiles == s.profiles && t.definitions == s.definitions && t.positions == s.positions && t.requests == s.requests
    ensures t.position == s.position && t.recoveries == s.recoveries && t.stops == s.stops
  {
  }

  lemma OnlyRecords(s: Store, t: Store)
    requires t == s.(creations := t.creations, placements := t.placements, applied := t.applied)
    ensures t.profiles == s.profiles && t.definitions == s.definitions && t.positions == s.positions && t.requests == s.requests
    ensures t.position == s.position && t.recoveries == s.recoveries && t.stops == s.stops
    ensures t.activations == s.activations && t.latest == s.latest
  {
  }

  lemma FrameSays(op: Op, s: Store, t: Store)
    requires Frame(op, s, t)
    ensures !Publishes(op) ==> t.profiles == s.profiles
    ensures !op.OpConfigure? && !op.OpRegisterCreation? ==> t.definitions == s.definitions && t.positions == s.positions
    ensures !op.OpConfigure? ==> t.requests == s.requests
    ensures !Activates(op) ==> t.activations == s.activations && t.latest == s.latest
    ensures !Recovers(op) ==> t.recoveries == s.recoveries
    ensures !Stops(op) ==> t.stops == s.stops
    ensures !op.OpConfigure? && !op.OpRegisterCreation? && !Recovers(op) && !Stops(op) ==> t.position == s.position
  {
    if Publishes(op) {
      OnlyProfiles(s, t);
    } else if op.OpConfigure? || op.OpRegisterCreation? {
      OnlyRevisions(s, t);
      if op.OpRegisterCreation? {
        OnlyCreations(s, t);
      }
    } else if Recovers(op) {
      OnlyRecoveries(s, t);
    } else if Stops(op) {
      OnlyStops(s, t);
    } else if Activates(op) {
      OnlyActivations(s, t);
    } else {
      OnlyRecords(s, t);
    }
  }
}
