/**
  Stops against activations, however their requests interleave.

  A ControlPlane is the store and, for each agent, the request that holds its activation lock and how far
  it has come. A step is one store operation of one request: an activation is checked against stops,
  stored, answered by garam and recorded under the lock; a stop reads the latest activation and is
  recorded under it; a start, and every other operation, takes no lock. A request may end at any point,
  refused or stopped, which lets the lock go.
 */
module StopSafety {
  import opened Options
  import opened Domain
  import opened Store
  import opened StoreFrames
  import opened StoreSafety
  import opened StoreHistory

  datatype Holder =
    | ActivationEntered(request: ActivationRequest)
    | ActivationChecked(request: ActivationRequest)     // no stop held the agent when it was checked
    | ActivationPrepared(request: ActivationRequest)    // stored, and sent to garam
    | ActivationAnswered(request: ActivationRequest, activationID: string)
    | StopEntered(stop: Stop)
    | StopRead(stop: Stop)                              // with the latest activation it read

  datatype ControlPlane = ControlPlane(store: Store, holders: map<GRN, Holder>)

  /** The agent's latest activation as a stop records it: empty before any. */
  function LatestOf(s: Store, agent: GRN): string {
    if agent in s.latest then s.latest[agent] else ""
  }

  predicate Underway(h: Holder) {
    h.ActivationChecked? || h.ActivationPrepared? || h.ActivationAnswered?
  }

  // ---- Steps ----

  ghost predicate Take(v: ControlPlane, v': ControlPlane, agent: GRN) {
    && agent !in v.holders
    && exists h: Holder :: (h.ActivationEntered? || (h.StopEntered? && h.stop.agent == agent))
         && v' == v.(holders := v.holders[agent := h])
  }

  ghost predicate LetGo(v: ControlPlane, v': ControlPlane, agent: GRN) {
    agent in v.holders && v' == v.(holders := v.holders - {agent})
  }

  ghost predicate Check(v: ControlPlane, v': ControlPlane, agent: GRN) {
    && agent in v.holders && v.holders[agent].ActivationEntered? && !IsStopped(v.store, agent)
    && v' == v.(holders := v.holders[agent := ActivationChecked(v.holders[agent].request)])
  }

  ghost predicate Prepare(v: ControlPlane, v': ControlPlane, agent: GRN) {
    && agent in v.holders && v.holders[agent].ActivationChecked?
    && exists a: Activation :: a.agent == agent && a.request == v.holders[agent].request && a.activationID == ""
         && v' == ControlPlane(InsertActivation(v.store, a).0, v.holders[agent := ActivationPrepared(a.request)])
  }

  ghost predicate Answer(v: ControlPlane, v': ControlPlane, agent: GRN) {
    && agent in v.holders && v.holders[agent].ActivationPrepared?
    && exists id: string :: id != "" && v' == v.(holders := v.holders[agent := ActivationAnswered(v.holders[agent].request, id)])
  }

  ghost predicate Record(v: ControlPlane, v': ControlPlane, agent: GRN) {
    && agent in v.holders && v.holders[agent].ActivationAnswered?
    && var h := v.holders[agent];
       v' == ControlPlane(RecordActivation(v.store, agent, h.request.requestID, h.activationID).0, v.holders - {agent})
  }

  ghost predicate ReadLatest(v: ControlPlane, v': ControlPlane, agent: GRN) {
    && agent in v.holders && v.holders[agent].StopEntered?
    && v' == v.(holders := v.holders[agent := StopRead(v.holders[agent].stop.(activationID := LatestOf(v.store, agent)))])
  }

  ghost predicate RecordAStop(v: ControlPlane, v': ControlPlane, agent: GRN) {
    && agent in v.holders && v.holders[agent].StopRead?
    && v' == ControlPlane(RecordStop(v.store, v.holders[agent].stop).0, v.holders - {agent})
  }

  /** Every operation that records neither an activation nor a stop, a start among them. */
  ghost predicate Other(v: ControlPlane, v': ControlPlane) {
    exists op: Op :: Permitted(v.store, op) && !op.OpInsertActivation? && !op.OpRecordActivation? && !op.OpRecordStop?
      && v' == v.(store := Apply(v.store, op))
  }

  ghost predicate Next(v: ControlPlane, v': ControlPlane) {
    || (exists agent :: Take(v, v', agent))
    || (exists agent :: LetGo(v, v', agent))
    || (exists agent :: Check(v, v', agent))
    || (exists agent :: Prepare(v, v', agent))
    || (exists agent :: Answer(v, v', agent))
    || (exists agent :: Record(v, v', agent))
    || (exists agent :: ReadLatest(v, v', agent))
    || (exists agent :: RecordAStop(v, v', agent))
    || Other(v, v')
  }

  ghost predicate StepAt(run: seq<ControlPlane>, i: nat)
    requires i < |run| - 1
  {
    Next(run[i], run[i + 1])
  }

  ghost predicate IsRun(run: seq<ControlPlane>) {
    && run != [] && run[0] == ControlPlane(EMPTY, map[])
    && forall i | 0 <= i < |run| - 1 :: StepAt(run, i)
  }

  // ---- What holds throughout ----

  /** An activation under way is of an agent no stop holds; a stop about to be recorded names what is
      still the latest activation, and so does every stop that holds an agent. */
  ghost predicate Serialized(v: ControlPlane) {
    && (forall agent | agent in v.holders && Underway(v.holders[agent]) :: !IsStopped(v.store, agent))
    && (forall agent | agent in v.holders && (v.holders[agent].StopEntered? || v.holders[agent].StopRead?) ::
          v.holders[agent].stop.agent == agent)
    && (forall agent | agent in v.holders && v.holders[agent].StopRead? ::
          v.holders[agent].stop.activationID == LatestOf(v.store, agent))
    && (forall agent, key | HoldsAgent(v.store, agent, key) :: v.store.stops[key].activationID == LatestOf(v.store, agent))
  }

  /** Nothing a stop or an activation rests on differs, but that a stop may have ended. */
  ghost predicate StopsOnlyEnd(s: Store, s': Store) {
    && s'.latest == s.latest
    && forall agent, key | HoldsAgent(s', agent, key) :: HoldsAgent(s, agent, key) && s'.stops[key].activationID == s.stops[key].activationID
  }

  lemma OtherOnlyEnds(s: Store, op: Op)
    requires StopsOk(s.stops, s.stopEnds)
    requires Permitted(s, op) && !op.OpInsertActivation? && !op.OpRecordActivation? && !op.OpRecordStop?
    ensures StopsOnlyEnd(s, Apply(s, op))
  {
    SameActivations(s, op);
    match op {
      case OpRecordStart(agent, end) => StartOnlyEnds(s, agent, end);
      case OpRecordDeactivation(key) => DeactivationOnlyEnds(s, key);
      case _ => SameStops(s, op);
    }
  }

  lemma DeactivationOnlyEnds(s: Store, key: RequestKey)
    ensures StopsOnlyEnd(s, RecordDeactivation(s, key).0)
  {
    if key in s.stops {
      AnsweredOnlyEnds(s, s.stops[key := s.stops[key].(deactivated := true)], key);
    }
  }

  lemma AnsweredOnlyEnds(s: Store, stops: map<RequestKey, Stop>, key: RequestKey)
    requires key in s.stops && stops == s.stops[key := s.stops[key].(deactivated := true)]
    ensures StopsOnlyEnd(s, s.(stops := stops))
  {
    forall k | k in stops
      ensures k in s.stops && stops[k].agent == s.stops[k].agent && stops[k].start == s.stops[k].start
      ensures stops[k].activationID == s.stops[k].activationID
    {
    }
  }

  lemma StartOnlyEnds(s: Store, agent: GRN, end: StopEnd)
    requires StopsOk(s.stops, s.stopEnds)
    ensures StopsOnlyEnd(s, RecordStart(s, agent, end).0)
  {
    var t := RecordStart(s, agent, end).0;
    if t.position == s.position {
      assert t == s;
    } else {
      var stop := CurrentStop(s, agent).value;
      assert HoldsAgent(s, agent, stop.key);
      EndedOnlyEnds(s, t, stop.key);
    }
  }

  lemma EndedOnlyEnds(s: Store, t: Store, key: RequestKey)
    requires key in s.stops && t.latest == s.latest && t.stops.Keys == s.stops.Keys
    requires forall k | k in s.stops && k != key :: t.stops[k] == s.stops[k]
    requires t.stops[key].start.Some?
    ensures StopsOnlyEnd(s, t)
  {
  }

  lemma SameStops(s: Store, op: Op)
    requires Permitted(s, op) && !op.OpRecordStop? && !op.OpRecordDeactivation? && !op.OpRecordStart?
    ensures Apply(s, op).stops == s.stops
  {
    ApplyFrame(s, op);
    FrameSays(op, s, Apply(s, op));
  }

  lemma OnlyEndsKeeps(v: ControlPlane, v': ControlPlane)
    requires Serialized(v) && v'.holders == v.holders && StopsOnlyEnd(v.store, v'.store)
    ensures Serialized(v')
  {
    forall agent | IsStopped(v'.store, agent)
      ensures IsStopped(v.store, agent)
    {
      var key :| HoldsAgent(v'.store, agent, key);
      assert HoldsAgent(v.store, agent, key);
    }
  }

  lemma RecordKeeps(v: ControlPlane, v': ControlPlane, agent: GRN)
    requires Serialized(v) && Record(v, v', agent)
    ensures Serialized(v')
  {
    assert v'.store.stops == v.store.stops;
    forall a, key
      ensures HoldsAgent(v'.store, a, key) <==> HoldsAgent(v.store, a, key)
      ensures HoldsAgent(v.store, a, key) ==> a != agent
    {
      assert !IsStopped(v.store, agent);
    }
    assert forall a :: IsStopped(v'.store, a) <==> IsStopped(v.store, a);
    assert forall a | a != agent :: LatestOf(v'.store, a) == LatestOf(v.store, a);
  }

  lemma RecordStopKeeps(v: ControlPlane, v': ControlPlane, agent: GRN)
    requires Serialized(v) && RecordAStop(v, v', agent)
    ensures Serialized(v')
  {
    var stop := v.holders[agent].stop;
    StopRecorded(v.store, stop);
    forall a | IsStopped(v'.store, a) && a != agent
      ensures IsStopped(v.store, a)
    {
      var key :| HoldsAgent(v'.store, a, key);
      assert HoldsAgent(v.store, a, key);
    }
  }

  /** The one stop that may hold an agent after one is recorded, and did not before. */
  lemma StopRecorded(s: Store, stop: Stop)
    ensures var t := RecordStop(s, stop).0;
            && t.latest == s.latest
            && forall a, key | HoldsAgent(t, a, key) ::
                 || (HoldsAgent(s, a, key) && t.stops[key] == s.stops[key])
                 || (a == stop.agent && key == stop.key && t.stops[key].activationID == stop.activationID)
  {
    var t := RecordStop(s, stop).0;
    if t.position == s.position {
      assert t == s;
    } else {
      assert t == s.(stops := s.stops[stop.key := stop.(deactivated := false, start := None)], position := s.position + 1);
    }
  }

  lemma LockStepsKeep(v: ControlPlane, v': ControlPlane, agent: GRN)
    requires Serialized(v)
    requires Take(v, v', agent) || LetGo(v, v', agent) || Check(v, v', agent) || Answer(v, v', agent) || ReadLatest(v, v', agent)
    ensures Serialized(v')
  {
  }

  lemma PrepareKeeps(v: ControlPlane, v': ControlPlane, agent: GRN)
    requires Serialized(v) && Prepare(v, v', agent)
    ensures Serialized(v')
  {
    assert v'.store == v.store.(activations := v'.store.activations);
    assert forall a, key :: HoldsAgent(v'.store, a, key) <==> HoldsAgent(v.store, a, key);
    assert forall a :: IsStopped(v'.store, a) <==> IsStopped(v.store, a);
  }

  lemma NextKeeps(v: ControlPlane, v': ControlPlane)
    requires Serialized(v) && StoreOk(v.store) && Next(v, v')
    ensures Serialized(v')
  {
    if Other(v, v') {
      var op :| Permitted(v.store, op) && !op.OpInsertActivation? && !op.OpRecordActivation? && !op.OpRecordStop?
        && v' == v.(store := Apply(v.store, op));
      OtherOnlyEnds(v.store, op);
      OnlyEndsKeeps(v, v');
    } else if agent :| Prepare(v, v', agent) {
      PrepareKeeps(v, v', agent);
    } else if agent :| Record(v, v', agent) {
      RecordKeeps(v, v', agent);
    } else if agent :| RecordAStop(v, v', agent) {
      RecordStopKeeps(v, v', agent);
    } else {
      var agent :| Take(v, v', agent) || LetGo(v, v', agent) || Check(v, v', agent) || Answer(v, v', agent) || ReadLatest(v, v', agent);
      LockStepsKeep(v, v', agent);
    }
  }

  /** A step of a request is one operation of the store, or none. */
  lemma NextKeepsStore(v: ControlPlane, v': ControlPlane)
    requires StoreOk(v.store) && Keyed(v.store.activations) && Next(v, v')
    ensures StoreOk(v'.store) && Keyed(v'.store.activations)
  {
    if v'.store != v.store {
      var op := OpOf(v, v');
      ApplyKeeps(v.store, op);
      ApplyKeyed(v.store, op);
    }
  }

  lemma OpOf(v: ControlPlane, v': ControlPlane) returns (op: Op)
    requires Next(v, v') && v'.store != v.store
    ensures Permitted(v.store, op) && v'.store == Apply(v.store, op)
  {
    if Other(v, v') {
      op :| Permitted(v.store, op) && !op.OpInsertActivation? && !op.OpRecordActivation? && !op.OpRecordStop?
        && v' == v.(store := Apply(v.store, op));
    } else {
      op := RequestOp(v, v');
    }
  }

  lemma RequestOp(v: ControlPlane, v': ControlPlane) returns (op: Op)
    requires Next(v, v') && v'.store != v.store && !Other(v, v')
    ensures Permitted(v.store, op) && v'.store == Apply(v.store, op)
  {
    if agent :| Prepare(v, v', agent) {
      var a: Activation :| a.agent == agent && a.request == v.holders[agent].request && a.activationID == ""
        && v' == ControlPlane(InsertActivation(v.store, a).0, v.holders[agent := ActivationPrepared(a.request)]);
      op := OpInsertActivation(a);
    } else if agent :| Record(v, v', agent) {
      op := OpRecordActivation(agent, v.holders[agent].request.requestID, v.holders[agent].activationID);
    } else {
      var agent :| RecordAStop(v, v', agent);
      op := OpRecordStop(v.holders[agent].stop);
    }
  }

  lemma {:induction false} RunIsSerialized(run: seq<ControlPlane>, i: nat)
    requires IsRun(run) && i < |run|
    ensures StoreOk(run[i].store) && Keyed(run[i].store.activations) && Serialized(run[i])
  {
    if i == 0 {
      EmptyOk();
    } else {
      RunIsSerialized(run, i - 1);
      assert StepAt(run, i - 1);
      NextKeepsStore(run[i - 1], run[i]);
      NextKeeps(run[i - 1], run[i]);
    }
  }

  // ---- What it is for ----

  /** In every interleaving, a stop that holds an agent names the agent's latest activation. */
  lemma StopNamesLatest(run: seq<ControlPlane>, i: nat, agent: GRN, key: RequestKey)
    requires IsRun(run) && i < |run| && HoldsAgent(run[i].store, agent, key)
    ensures var latest := run[i].store.latest;
            run[i].store.stops[key].activationID == if agent in latest then latest[agent] else ""
  {
    RunIsSerialized(run, i);
  }

  /** And while it does, no activation of the agent is recorded, and none is stored either. */
  lemma NoActivationWhileStopped(run: seq<ControlPlane>, i: nat, agent: GRN)
    requires IsRun(run) && i + 1 < |run| && IsStopped(run[i].store, agent)
    ensures var was, now := run[i].store.latest, run[i + 1].store.latest;
            (if agent in now then now[agent] else "") == if agent in was then was[agent] else ""
    ensures In(run[i + 1].store.activations, agent) == In(run[i].store.activations, agent)
  {
    RunIsSerialized(run, i);
    assert StepAt(run, i);
    StoppedStep(run[i], run[i + 1], agent);
  }

  lemma StoppedStep(v: ControlPlane, v': ControlPlane, agent: GRN)
    requires Serialized(v) && Next(v, v') && IsStopped(v.store, agent)
    ensures LatestOf(v'.store, agent) == LatestOf(v.store, agent)
    ensures In(v'.store.activations, agent) == In(v.store.activations, agent)
  {
    if Other(v, v') {
      var op :| Permitted(v.store, op) && !op.OpInsertActivation? && !op.OpRecordActivation? && !op.OpRecordStop?
        && v' == v.(store := Apply(v.store, op));
      SameActivations(v.store, op);
    } else if other :| Prepare(v, v', other) {
      PrepareElsewhere(v, v', other, agent);
    } else if other :| Record(v, v', other) {
      RecordElsewhere(v, v', other, agent);
    } else if other :| RecordAStop(v, v', other) {
      StopFrame(v.store, v.holders[other].stop);
    } else {
      assert v'.store == v.store;
    }
  }

  lemma PrepareElsewhere(v: ControlPlane, v': ControlPlane, other: GRN, agent: GRN)
    requires Serialized(v) && Prepare(v, v', other) && IsStopped(v.store, agent)
    ensures v'.store.latest == v.store.latest && In(v'.store.activations, agent) == In(v.store.activations, agent)
  {
    assert other != agent;
  }

  lemma RecordElsewhere(v: ControlPlane, v': ControlPlane, other: GRN, agent: GRN)
    requires Serialized(v) && Record(v, v', other) && IsStopped(v.store, agent)
    ensures LatestOf(v'.store, agent) == LatestOf(v.store, agent)
    ensures In(v'.store.activations, agent) == In(v.store.activations, agent)
  {
    assert other != agent;
    var h := v.holders[other];
    RecordsOther(v.store, other, h.request.requestID, h.activationID, agent);
  }

  lemma RecordsOther(s: Store, other: GRN, requestID: string, activationID: string, agent: GRN)
    requires agent != other
    ensures var t := RecordActivation(s, other, requestID, activationID).0;
            LatestOf(t, agent) == LatestOf(s, agent) && In(t.activations, agent) == In(s.activations, agent)
  {
    var t := RecordActivation(s, other, requestID, activationID).0;
    if RecordActivation(s, other, requestID, activationID).1.Err? {
      assert t == s;
    } else {
      assert t.latest == s.latest[other := activationID];
      assert forall a | a != other :: (a in t.activations <==> a in s.activations)
                                      && (a in s.activations ==> t.activations[a] == s.activations[a]);
    }
  }
}
