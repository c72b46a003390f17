/**
  The control service's store as one value, and each of its operations as a function of it: what the
  store becomes, and what is answered. Where the store reads a map in no order, the function takes any
  match; StoreSafety proves there is never more than one.
 */
module Store {
  import opened Options
  import opened Domain

  datatype Named = Named(organization: string, name: string)

  datatype Store = Store(
    profiles: map<Named, seq<Settings>>,
    definitions: map<GRN, seq<Definition>>,
    positions: map<GRN, seq<Position>>,
    position: Position,
    creations: map<RequestKey, Creation>,
    requests: map<RequestKey, Request>,
    placements: map<GRN, map<string, Placement>>,
    activations: map<GRN, map<string, Activation>>,
    latest: map<GRN, string>,
    applied: map<GRN, RuntimeApplied>,
    recoveries: map<GRN, seq<Recovery>>,
    stops: map<RequestKey, Stop>,
    stopEnds: map<RequestKey, RequestKey>)

  const EMPTY := Store(map[], map[], map[], 0, map[], map[], map[], map[], map[], map[], map[], map[], map[])

  function At<K, V>(m: map<K, seq<V>>, k: K): seq<V> {
    if k in m then m[k] else []
  }

  function In<K, J, V>(m: map<K, map<J, V>>, k: K): map<J, V> {
    if k in m then m[k] else map[]
  }

  function Last<T>(s: seq<T>): T
    requires s != []
  {
    s[|s| - 1]
  }

  // ---- Profiles ----

  function PublishProfile(s: Store, organization: string, name: string, settings: Settings): (Store, Version) {
    var key := Named(organization, name);
    (s.(profiles := s.profiles[key := At(s.profiles, key) + [settings]]), |At(s.profiles, key)| + 1)
  }

  function PublishProfileVersion(s: Store, organization: string, ref: ProfileRef, settings: Settings)
    : (Store, Result<bool, Error>)
    requires ref.version >= 1
  {
    var key := Named(organization, ref.name);
    var versions := At(s.profiles, key);
    if ref.version <= |versions| then
      if versions[ref.version - 1] != settings then (s, Err(ProfileVersionConflict)) else (s, Ok(false))
    else if ref.version != |versions| + 1 then (s, Err(ProfileVersionGap))
    else (s.(profiles := s.profiles[key := versions + [settings]]), Ok(true))
  }

  predicate Published(s: Store, organization: string, ref: ProfileRef) {
    1 <= ref.version <= |At(s.profiles, Named(organization, ref.name))|
  }

  // ---- Revisions ----

  /** Stores d when its revision is one past the agent's latest. */
  function Append(s: Store, d: Definition): Option<Store> {
    var revisions := At(s.definitions, d.agent);
    if d.revision != |revisions| + 1 then None
    else
      Some(s.(position := s.position + 1,
              definitions := s.definitions[d.agent := revisions + [d]],
              positions := s.positions[d.agent := At(s.positions, d.agent) + [s.position + 1]]))
  }

  function Configure(s: Store, r: Request, d: Definition): (Store, Result<Request, Error>) {
    if r.key in s.requests then (s, Ok(s.requests[r.key]))
    else if At(s.definitions, d.agent) == [] || s.definitions[d.agent][0].organization != d.organization then (s, Err(NotFound))
    else
      match Append(s, d)
      case Some(appended) =>
        var stored := r.(outcome := Applied(d.revision));
        (appended.(requests := s.requests[r.key := stored]), Ok(stored))
      case None =>
        var stored := r.(outcome := Stale);
        (s.(requests := s.requests[r.key := stored]), Ok(stored))
  }

  function GetDefinition(s: Store, agent: GRN): Result<Definition, Error> {
    if At(s.definitions, agent) == [] then Err(NotFound) else Ok(Last(s.definitions[agent]))
  }

  // ---- Creations ----

  function BeginCreation(s: Store, c: Creation): (Store, Creation) {
    if c.key in s.creations then (s, s.creations[c.key])
    else
      var stored := c.(outcome := Pending);
      (s.(creations := s.creations[c.key := stored]), stored)
  }

  function RegisterCreation(s: Store, key: RequestKey, d: Definition): (Store, Result<(Creation, bool), Error>)
    requires d.assignment.Some?
  {
    if key !in s.creations then (s, Err(NotFound))
    else if s.creations[key].outcome != Pending then (s, Ok((s.creations[key], false)))
    else
      match Append(s, d)
      case None => (s, Err(StaleRevision))
      case Some(appended) =>
        var c := s.creations[key].(outcome := Registered(d.agent, d.assignment.value.epoch));
        (appended.(creations := s.creations[key := c]), Ok((c, true)))
  }

  function FailCreation(s: Store, key: RequestKey, failed: Outcome): (Store, Result<Creation, Error>) {
    if key !in s.creations then (s, Err(NotFound))
    else if s.creations[key].outcome != Pending then (s, Ok(s.creations[key]))
    else
      var c := s.creations[key].(outcome := failed);
      (s.(creations := s.creations[key := c]), Ok(c))
  }

  predicate CreatedBy(s: Store, agent: GRN, key: RequestKey) {
    key in s.creations && s.creations[key].outcome.Registered? && s.creations[key].outcome.agent == agent
  }

  ghost function CreationOf(s: Store, agent: GRN): Result<Creation, Error> {
    if exists key :: CreatedBy(s, agent, key) then
      var key :| CreatedBy(s, agent, key);
      Ok(s.creations[key])
    else Err(NotFound)
  }

  predicate AppliedBy(s: Store, agent: GRN, revision: Revision, key: RequestKey) {
    key in s.requests && s.requests[key].outcome == Applied(revision) && s.requests[key].agent == agent
  }

  ghost function ConfigureReference(s: Store, agent: GRN, revision: Revision): Result<string, Error> {
    if exists key :: AppliedBy(s, agent, revision, key) then
      var key :| AppliedBy(s, agent, revision, key);
      Ok(s.requests[key].binding.operationRef)
    else Err(NotFound)
  }

  // ---- Placements ----

  predicate IsCurrent(ps: map<string, Placement>, uid: string) {
    uid in ps && !ps[uid].superseded
  }

  ghost function Current(ps: map<string, Placement>): Option<Placement> {
    if exists uid :: IsCurrent(ps, uid) then
      var uid :| IsCurrent(ps, uid);
      Some(ps[uid])
    else None
  }

  /** The placements once a registration took effect: the current one superseded, the new one stored. */
  function Placed(ps: map<string, Placement>, current: Option<Placement>, input: PlacementInput): map<string, Placement> {
    var kept := if current.Some? then ps[current.value.request.podUID := current.value.(superseded := true)] else ps;
    kept[input.request.podUID := Placement(input.agent, input.controller, input.request, false)]
  }

  ghost function RegisterPlacement(s: Store, input: PlacementInput): (Store, Result<(Placement, bool), Error>) {
    var ps := In(s.placements, input.agent);
    var same := if input.request.podUID in ps then Some(ps[input.request.podUID]) else None;
    match DecidePlacement(Current(ps), same, input)
    case Err(e) => (s, Err(e))
    case Ok(PlacementRepeat) => (s, if same.Some? then Ok((same.value, false)) else Err(NotFound))
    case Ok(PlacementRegister) =>
      var placed := Placed(ps, Current(ps), input);
      (s.(placements := s.placements[input.agent := placed]), Ok((placed[input.request.podUID], true)))
  }

  // ---- Activations ----

  function InsertActivation(s: Store, a: Activation): (Store, Activation) {
    var stored := In(s.activations, a.agent);
    if a.request.requestID in stored then (s, stored[a.request.requestID])
    else (s.(activations := s.activations[a.agent := stored[a.request.requestID := a]]), a)
  }

  function GetActivation(s: Store, agent: GRN, requestID: string): Result<Activation, Error> {
    if requestID in In(s.activations, agent) then Ok(s.activations[agent][requestID]) else Err(NotFound)
  }

  function RecordActivation(s: Store, agent: GRN, requestID: string, activationID: string): (Store, Result<(), Error>) {
    var stored := In(s.activations, agent);
    if requestID !in stored then (s, Err(NotFound))
    else if stored[requestID].activationID != "" && stored[requestID].activationID != activationID then (s, Err(ActivationMismatch))
    else
      (s.(activations := s.activations[agent := stored[requestID := stored[requestID].(activationID := activationID)]],
          latest := s.latest[agent := activationID]), Ok(()))
  }

  function LatestActivation(s: Store, agent: GRN): Result<string, Error> {
    if agent in s.latest then Ok(s.latest[agent]) else Err(NotFound)
  }

  function RecordRuntimeApplied(s: Store, agent: GRN, applied: RuntimeApplied): Store {
    s.(applied := s.applied[agent := applied])
  }

  // ---- Recoveries ----

  predicate RecoveryAt(s: Store, agent: GRN, i: int, key: RequestKey) {
    agent in s.recoveries && 0 <= i < |s.recoveries[agent]| && s.recoveries[agent][i].key == key
  }

  /** The index of a request id among an agent's recoveries, or none. */
  function RecoveryIndex(rs: seq<Recovery>, requestID: string): (i: Option<nat>)
    ensures i.Some? ==> i.value < |rs| && rs[i.value].requestID == requestID
    ensures i.None? ==> forall k | 0 <= k < |rs| :: rs[k].requestID != requestID
  {
    if rs == [] then None
    else
      match RecoveryIndex(rs[..|rs| - 1], requestID)
      case Some(k) => Some(k)
      case None => if rs[|rs| - 1].requestID == requestID then Some(|rs| - 1) else None
  }

  /** What the first recovery not finalized is prepared under. */
  function OpenIn(rs: seq<Recovery>): Option<OpenRecovery> {
    if rs == [] then None
    else
      match OpenIn(rs[..|rs| - 1])
      case Some(open) => Some(open)
      case None =>
        if rs[|rs| - 1].stage != RecoveryFinalized then Some(OpenRecovery(rs[|rs| - 1].requestID, rs[|rs| - 1].epoch)) else None
  }

  ghost function RecordRecovery(s: Store, r: Recovery): (Store, Result<(Recovery, bool), Error>) {
    if exists agent, i :: RecoveryAt(s, agent, i, r.key) then
      var agent, i :| RecoveryAt(s, agent, i, r.key);
      (s, Ok((s.recoveries[agent][i], false)))
    else if RecoveryIndex(At(s.recoveries, r.agent), r.requestID).Some? then (s, Err(RequestReused))
    else if OpenIn(At(s.recoveries, r.agent)).Some? then (s, Err(RecoveryOpen))
    else
      (s.(recoveries := s.recoveries[r.agent := At(s.recoveries, r.agent) + [r]], position := s.position + 1), Ok((r, true)))
  }

  function LatestRecovery(s: Store, agent: GRN): Result<Recovery, Error> {
    if At(s.recoveries, agent) == [] then Err(NotFound) else Ok(Last(s.recoveries[agent]))
  }

  function WithRecovery(s: Store, agent: GRN, i: nat, r: Recovery): Store
    requires i < |At(s.recoveries, agent)|
  {
    s.(recoveries := s.recoveries[agent := s.recoveries[agent][i := r]])
  }

  function PrepareRecovery(s: Store, agent: GRN, requestID: string, epoch: string, body: Body)
    : (Store, Result<Recovery, Error>)
  {
    match RecoveryIndex(At(s.recoveries, agent), requestID)
    case None => (s, Err(NotFound))
    case Some(i) =>
      var r := s.recoveries[agent][i];
      if r.epoch != epoch then (s, Err(RecoveryEpoch))
      else if r.stage == RecoveryRequested then
        var prepared := r.(stage := RecoveryPrepared, body := body);
        (WithRecovery(s, agent, i, prepared), Ok(prepared))
      else if r.body != body then (s, Err(if r.stage == RecoveryFinalized then RecoveryStageMismatch else RequestReused))
      else (s, Ok(r))
  }

  function FinalizeRecovery(s: Store, agent: GRN, requestID: string, lineage: string): (Store, Result<Recovery, Error>) {
    match RecoveryIndex(At(s.recoveries, agent), requestID)
    case None => (s, Err(NotFound))
    case Some(i) =>
      var r := s.recoveries[agent][i];
      match r.stage
      case RecoveryFinalized => (s, Ok(r))
      case RecoveryPrepared =>
        var finalized := r.(stage := RecoveryFinalized, recovered := Some(lineage));
        (WithRecovery(s, agent, i, finalized).(position := s.position + 1), Ok(finalized))
      case RecoveryRequested => (s, Err(RecoveryStageMismatch))
  }

  // ---- Stops ----

  predicate HoldsAgent(s: Store, agent: GRN, key: RequestKey) {
    key in s.stops && s.stops[key].agent == agent && s.stops[key].start.None?
  }

  ghost predicate IsStopped(s: Store, agent: GRN) {
    exists key :: HoldsAgent(s, agent, key)
  }

  ghost function CurrentStop(s: Store, agent: GRN): Option<Stop> {
    if IsStopped(s, agent) then
      var key :| HoldsAgent(s, agent, key);
      Some(s.stops[key])
    else None
  }

  ghost function RecordStop(s: Store, stop: Stop): (Store, Result<(Stop, bool), Error>) {
    if stop.key in s.stops then (s, Ok((s.stops[stop.key], false)))
    else if IsStopped(s, stop.agent) then (s, Err(AgentStopped))
    else
      var stored := stop.(deactivated := false, start := None);
      (s.(stops := s.stops[stop.key := stored], position := s.position + 1), Ok((stored, true)))
  }

  function RecordDeactivation(s: Store, key: RequestKey): (Store, Result<(), Error>) {
    if key !in s.stops then (s, Err(NotFound))
    else (s.(stops := s.stops[key := s.stops[key].(deactivated := true)]), Ok(()))
  }

  /** What a start answers under a key used before: the stop it ended. (An end of no stop is one of
      the zero value.) */
  function EndedBy(s: Store, key: RequestKey): Result<Stop, Error>
    requires key in s.stopEnds
  {
    if s.stopEnds[key] in s.stops then Ok(s.stops[s.stopEnds[key]]) else Err(NotFound)
  }

  ghost function RecordStart(s: Store, agent: GRN, end: StopEnd): (Store, Result<Stop, Error>) {
    if end.key in s.stopEnds then (s, EndedBy(s, end.key))
    else
      match CurrentStop(s, agent)
      case None => (s, Err(AgentNotStopped))
      case Some(current) =>
        var stored := current.(start := Some(end));
        (s.(stops := s.stops[stored.key := stored], stopEnds := s.stopEnds[end.key := stored.key], position := s.position + 1),
         Ok(stored))
  }

  // ---- Operations ----

  datatype Op =
    | OpPublish(organization: string, name: string, settings: Settings)
    | OpPublishVersion(organization: string, ref: ProfileRef, settings: Settings)
    | OpConfigure(request: Request, definition: Definition)
    | OpBeginCreation(creation: Creation)
    | OpRegisterCreation(key: RequestKey, definition: Definition)
    | OpFailCreation(key: RequestKey, failed: Outcome)
    | OpRegisterPlacement(input: PlacementInput)
    | OpInsertActivation(activation: Activation)
    | OpRecordActivation(agent: GRN, requestID: string, activationID: string)
    | OpRecordApplied(agent: GRN, applied: RuntimeApplied)
    | OpOpenRecovery(recovery: Recovery)
    | OpPrepareRecovery(agent: GRN, requestID: string, epoch: string)
    | OpFinalizeRecovery(agent: GRN, requestID: string, lineage: string)
    | OpRecordStop(stop: Stop)
    | OpRecordDeactivation(key: RequestKey)
    | OpRecordStart(agent: GRN, end: StopEnd)

  /** What the service gives the store: a profile version published in the organization, one agent in
      a request and its revision, a creation's first revision under an assignment, and a recovery as
      requested. */
  ghost predicate Permitted(s: Store, op: Op) {
    match op
    case OpPublishVersion(organization, ref, settings) => ref.version >= 1
    case OpConfigure(r, d) => r.agent == d.agent && Published(s, d.organization, d.profile)
    case OpRegisterCreation(key, d) => d.revision == 1 && d.assignment.Some? && Published(s, d.organization, d.profile)
    case OpFailCreation(key, failed) => failed.Failed?
    case OpInsertActivation(a) => a.activationID == ""
    case OpOpenRecovery(r) => r.stage == RecoveryRequested && r.body == NoBody && r.recovered.None?
    case _ => true
  }

  ghost function Apply(s: Store, op: Op): Store
    requires Permitted(s, op)
  {
    match op
    case OpPublish(organization, name, settings) => PublishProfile(s, organization, name, settings).0
    case OpPublishVersion(organization, ref, settings) => PublishProfileVersion(s, organization, ref, settings).0
    case OpConfigure(r, d) => Configure(s, r, d).0
    case OpBeginCreation(c) => BeginCreation(s, c).0
    case OpRegisterCreation(key, d) => RegisterCreation(s, key, d).0
    case OpFailCreation(key, failed) => FailCreation(s, key, failed).0
    case OpRegisterPlacement(input) => RegisterPlacement(s, input).0
    case OpInsertActivation(a) => InsertActivation(s, a).0
    case OpRecordActivation(agent, requestID, activationID) => RecordActivation(s, agent, requestID, activationID).0
    case OpRecordApplied(agent, applied) => RecordRuntimeApplied(s, agent, applied)
    case OpOpenRecovery(r) => RecordRecovery(s, r).0
    case OpPrepareRecovery(agent, requestID, epoch) => PrepareRecovery(s, agent, requestID, epoch, RecoveryBody(requestID, epoch)).0
    case OpFinalizeRecovery(agent, requestID, lineage) => FinalizeRecovery(s, agent, requestID, lineage).0
    case OpRecordStop(stop) => RecordStop(s, stop).0
    case OpRecordDeactivation(key) => RecordDeactivation(s, key).0
    case OpRecordStart(agent, end) => RecordStart(s, agent, end).0
  }

  // ---- Runs ----

  ghost predicate Step(s: Store, s': Store) {
    exists op :: Permitted(s, op) && s' == Apply(s, op)
  }

  ghost predicate StepAt(run: seq<Store>, i: nat)
    requires i < |run| - 1
  {
    Step(run[i], run[i + 1])
  }

  ghost predicate IsRun(run: seq<Store>) {
    && run != [] && run[0] == EMPTY
    && forall i | 0 <= i < |run| - 1 :: StepAt(run, i)
  }
}
