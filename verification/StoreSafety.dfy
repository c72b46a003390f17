/** What every reachable store satisfies, so that a map read in no order has one answer. */
module StoreSafety {
  import opened Options
  import opened Domain
  import opened Store
  import opened StoreFrames

  // ---- Revisions and their positions ----

  /** An agent's revisions are numbered from 1 without a gap, in one organization, each under a
      published profile version of it. */
  ghost predicate RevisionsOk(profiles: map<Named, seq<Settings>>, definitions: map<GRN, seq<Definition>>) {
    forall agent | agent in definitions :: definitions[agent] != [] && NumberedOk(profiles, agent, definitions[agent])
  }

  ghost predicate NumberedOk(profiles: map<Named, seq<Settings>>, agent: GRN, revisions: seq<Definition>) {
    forall i | 0 <= i < |revisions| ::
      && revisions[i].revision == i + 1
      && revisions[i].agent == agent
      && revisions[i].organization == revisions[0].organization
      && 1 <= revisions[i].profile.version <= |At(profiles, Named(revisions[i].organization, revisions[i].profile.name))|
  }

  /** Each revision took a position of its own, later ones of an agent a greater one. */
  ghost predicate PositionsOk(definitions: map<GRN, seq<Definition>>, positions: map<GRN, seq<Position>>, position: Position) {
    && position >= 0
    && positions.Keys == definitions.Keys
    && (forall agent | agent in definitions :: |positions[agent]| == |definitions[agent]|)
    && (forall agent, i | agent in positions && 0 <= i < |positions[agent]| :: 1 <= positions[agent][i] <= position)
    && (forall agent, i, j | agent in positions && 0 <= i < j < |positions[agent]| :: positions[agent][i] < positions[agent][j])
    && (forall a, b, i, j | a in positions && b in positions && a != b && 0 <= i < |positions[a]| && 0 <= j < |positions[b]| ::
          positions[a][i] != positions[b][j])
  }

  // ---- Requests and creations ----

  ghost predicate AppliedKey(requests: map<RequestKey, Request>, agent: GRN, revision: Revision, key: RequestKey) {
    key in requests && requests[key].outcome == Applied(revision) && requests[key].agent == agent
  }

  /** Each revision above 1 was applied by exactly one request, and every stored request has ended. */
  ghost predicate RequestsOk(definitions: map<GRN, seq<Definition>>, requests: map<RequestKey, Request>) {
    && (forall key | key in requests :: requests[key].outcome != Unset)
    && (forall key | key in requests && requests[key].outcome.Applied? ::
          2 <= requests[key].outcome.revision <= |At(definitions, requests[key].agent)|)
    && (forall agent, revision, k, l | AppliedKey(requests, agent, revision, k) && AppliedKey(requests, agent, revision, l) :: k == l)
    && (forall agent, revision | agent in definitions && 2 <= revision <= |definitions[agent]| ::
          IsApplied(requests, agent, revision))
  }

  ghost predicate IsApplied(requests: map<RequestKey, Request>, agent: GRN, revision: Revision) {
    exists key :: AppliedKey(requests, agent, revision, key)
  }

  ghost predicate CreatedKey(creations: map<RequestKey, Creation>, agent: GRN, key: RequestKey) {
    key in creations && creations[key].outcome.Registered? && creations[key].outcome.agent == agent
  }

  ghost predicate IsCreated(creations: map<RequestKey, Creation>, agent: GRN) {
    exists key :: CreatedKey(creations, agent, key)
  }

  /** Each agent was registered by exactly one creation. */
  ghost predicate CreationsOk(definitions: map<GRN, seq<Definition>>, creations: map<RequestKey, Creation>) {
    && (forall agent, k, l | CreatedKey(creations, agent, k) && CreatedKey(creations, agent, l) :: k == l)
    && (forall agent :: agent in definitions <==> IsCreated(creations, agent))
  }

  // ---- Placements ----

  /** The Pods of an agent's placements, first to last: each after the first names the one before it
      with the digest of its evidence, and only the last is not superseded. */
  ghost predicate IsPath(ps: map<string, Placement>, path: seq<string>) {
    && (forall uid | uid in ps :: uid in path)
    && (forall i | 0 <= i < |path| ::
          path[i] in ps && ps[path[i]].request.podUID == path[i] && (ps[path[i]].superseded <==> i < |path| - 1))
    && (forall i | 0 <= i < |path| :: NamesPrevious(ps, path, i))
    && (forall i, j | 0 <= i < j < |path| :: path[i] != path[j])
  }

  ghost predicate NamesPrevious(ps: map<string, Placement>, path: seq<string>, i: nat)
    requires i < |path|
  {
    && path[i] in ps
    && var previous := ps[path[i]].request.previous;
       if i == 0 then previous == NO_PREVIOUS
       else previous.podUID == path[i - 1] && previous.writerStoppedSHA256 != ""
  }

  ghost predicate OnePath(ps: map<string, Placement>) {
    exists path :: IsPath(ps, path)
  }

  ghost predicate PlacementsOk(placements: map<GRN, map<string, Placement>>) {
    forall agent | agent in placements :: OnePath(placements[agent])
  }

  // ---- Recoveries ----

  /** Only the last recovery of an agent may be open; a body is the encoding of its own recovery, there
      once prepared; and a lineage is there exactly once finalized. */
  ghost predicate RecoveryListOk(agent: GRN, rs: seq<Recovery>) {
    && (forall i | 0 <= i < |rs| :: rs[i].agent == agent && StagedOk(rs[i]))
    && (forall i | 0 <= i < |rs| - 1 :: rs[i].stage == RecoveryFinalized)
    && (forall i, j | 0 <= i < j < |rs| :: rs[i].requestID != rs[j].requestID)
  }

  ghost predicate StagedOk(r: Recovery) {
    && r.body == (if r.stage == RecoveryRequested then NoBody else RecoveryBody(r.requestID, r.epoch))
    && (r.recovered.Some? <==> r.stage == RecoveryFinalized)
  }

  ghost predicate KeyAt(recoveries: map<GRN, seq<Recovery>>, agent: GRN, i: int, key: RequestKey) {
    agent in recoveries && 0 <= i < |recoveries[agent]| && recoveries[agent][i].key == key
  }

  /** And each was opened by a console request of its own. */
  ghost predicate RecoveriesOk(recoveries: map<GRN, seq<Recovery>>) {
    && (forall agent | agent in recoveries :: RecoveryListOk(agent, recoveries[agent]))
    && (forall a, b, i, j, key | KeyAt(recoveries, a, i, key) && KeyAt(recoveries, b, j, key) :: a == b && i == j)
  }

  // ---- Stops ----

  ghost predicate Holds(stops: map<RequestKey, Stop>, agent: GRN, key: RequestKey) {
    key in stops && stops[key].agent == agent && stops[key].start.None?
  }

  /** At most one stop holds an agent, and each start is remembered beside the stop it ended. */
  ghost predicate StopsOk(stops: map<RequestKey, Stop>, stopEnds: map<RequestKey, RequestKey>) {
    && (forall key | key in stops :: stops[key].key == key)
    && (forall agent, k, l | Holds(stops, agent, k) && Holds(stops, agent, l) :: k == l)
    && (forall key | key in stopEnds :: EndKept(stops, key, stopEnds[key]))
  }

  ghost predicate EndKept(stops: map<RequestKey, Stop>, key: RequestKey, stop: RequestKey) {
    stop in stops && stops[stop].start.Some? && stops[stop].start.value.key == key
  }

  // ---- All of them ----

  ghost predicate StoreOk(s: Store) {
    && RevisionsOk(s.profiles, s.definitions)
    && PositionsOk(s.definitions, s.positions, s.position)
    && RequestsOk(s.definitions, s.requests)
    && CreationsOk(s.definitions, s.creations)
    && PlacementsOk(s.placements)
    && RecoveriesOk(s.recoveries)
    && StopsOk(s.stops, s.stopEnds)
  }

  // ---- Each operation ----

  lemma PublishedStays(s: Store, key: Named, settings: Settings)
    requires RevisionsOk(s.profiles, s.definitions)
    ensures RevisionsOk(s.profiles[key := At(s.profiles, key) + [settings]], s.definitions)
  {
    var profiles := s.profiles[key := At(s.profiles, key) + [settings]];
    forall agent | agent in s.definitions
      ensures NumberedOk(profiles, agent, s.definitions[agent])
    {
      assert NumberedOk(s.profiles, agent, s.definitions[agent]);
      assert forall k :: |At(s.profiles, k)| <= |At(profiles, k)|;
    }
  }

  /** A revision appended is the next one of its agent, at a position no other took. */
  lemma AppendKeeps(s: Store, d: Definition)
    requires RevisionsOk(s.profiles, s.definitions) && PositionsOk(s.definitions, s.positions, s.position)
    requires Published(s, d.organization, d.profile)
    requires At(s.definitions, d.agent) != [] ==> s.definitions[d.agent][0].organization == d.organization
    requires Append(s, d).Some?
    ensures var s' := Append(s, d).value;
            RevisionsOk(s'.profiles, s'.definitions) && PositionsOk(s'.definitions, s'.positions, s'.position)
  {
    var s' := Append(s, d).value;
    assert s' == s.(definitions := s.definitions[d.agent := At(s.definitions, d.agent) + [d]],
                    positions := s.positions[d.agent := At(s.positions, d.agent) + [s.position + 1]], position := s.position + 1);
    AppendKeepsRevisions(s.profiles, s.definitions, d);
    AppendKeepsPositions(s.definitions, s.positions, s.position, d);
  }

  lemma AppendKeepsRevisions(profiles: map<Named, seq<Settings>>, definitions: map<GRN, seq<Definition>>, d: Definition)
    requires RevisionsOk(profiles, definitions) && d.revision == |At(definitions, d.agent)| + 1
    requires 1 <= d.profile.version <= |At(profiles, Named(d.organization, d.profile.name))|
    requires At(definitions, d.agent) != [] ==> definitions[d.agent][0].organization == d.organization
    ensures RevisionsOk(profiles, definitions[d.agent := At(definitions, d.agent) + [d]])
  {
    var next := definitions[d.agent := At(definitions, d.agent) + [d]];
    forall agent | agent in next
      ensures next[agent] != [] && NumberedOk(profiles, agent, next[agent])
    {
      assert agent in definitions ==> NumberedOk(profiles, agent, definitions[agent]);
    }
  }

  lemma AppendKeepsPositions(definitions: map<GRN, seq<Definition>>, positions: map<GRN, seq<Position>>, position: Position, d: Definition)
    requires PositionsOk(definitions, positions, position)
    ensures PositionsOk(definitions[d.agent := At(definitions, d.agent) + [d]],
                        positions[d.agent := At(positions, d.agent) + [position + 1]], position + 1)
  {
  }

  lemma AppliedAfter(requests: map<RequestKey, Request>, r: Request)
    requires r.key !in requests
    ensures forall agent, revision, k :: AppliedKey(requests[r.key := r], agent, revision, k) <==>
              AppliedKey(requests, agent, revision, k) || (k == r.key && r.agent == agent && r.outcome == Applied(revision))
  {
    var requests' := requests[r.key := r];
    forall agent, revision, k
      ensures AppliedKey(requests', agent, revision, k) <==>
                AppliedKey(requests, agent, revision, k) || (k == r.key && r.agent == agent && r.outcome == Applied(revision))
    {
      assert k in requests' <==> k in requests || k == r.key;
    }
  }

  lemma StillApplied(requests: map<RequestKey, Request>, r: Request, agent: GRN, revision: Revision)
    requires r.key !in requests && IsApplied(requests, agent, revision)
    ensures IsApplied(requests[r.key := r], agent, revision)
  {
    var key :| AppliedKey(requests, agent, revision, key);
    assert AppliedKey(requests[r.key := r], agent, revision, key);
  }

  lemma StaleKeepsRequests(definitions: map<GRN, seq<Definition>>, requests: map<RequestKey, Request>, r: Request)
    requires RequestsOk(definitions, requests) && r.key !in requests && r.outcome == Stale
    ensures RequestsOk(definitions, requests[r.key := r])
  {
    var requests' := requests[r.key := r];
    AppliedAfter(requests, r);
    forall agent, revision | agent in definitions && 2 <= revision <= |definitions[agent]|
      ensures IsApplied(requests', agent, revision)
    {
      assert IsApplied(requests, agent, revision);
      StillApplied(requests, r, agent, revision);
    }
    OneKeyEach(requests, requests', r);
  }

  lemma OneKeyEach(requests: map<RequestKey, Request>, requests': map<RequestKey, Request>, r: Request)
    requires r.key !in requests && requests' == requests[r.key := r]
    requires forall agent, revision, k, l | AppliedKey(requests, agent, revision, k) && AppliedKey(requests, agent, revision, l) :: k == l
    requires r.outcome.Applied? ==> forall k :: !AppliedKey(requests, r.agent, r.outcome.revision, k)
    ensures forall agent, revision, k, l | AppliedKey(requests', agent, revision, k) && AppliedKey(requests', agent, revision, l) :: k == l
  {
    forall agent, revision, k, l | AppliedKey(requests', agent, revision, k) && AppliedKey(requests', agent, revision, l)
      ensures k == l
    {
      assert k == r.key || AppliedKey(requests, agent, revision, k);
      assert l == r.key || AppliedKey(requests, agent, revision, l);
    }
  }

  lemma AppliedKeepsRequests(definitions: map<GRN, seq<Definition>>, requests: map<RequestKey, Request>, r: Request, d: Definition)
    requires RequestsOk(definitions, requests) && r.key !in requests && r.agent == d.agent && r.outcome == Applied(d.revision)
    requires At(definitions, d.agent) != [] && d.revision == |At(definitions, d.agent)| + 1
    ensures RequestsOk(definitions[d.agent := definitions[d.agent] + [d]], requests[r.key := r])
  {
    var definitions' := definitions[d.agent := definitions[d.agent] + [d]];
    var requests' := requests[r.key := r];
    forall agent, revision | agent in definitions' && 2 <= revision <= |definitions'[agent]|
      ensures IsApplied(requests', agent, revision)
    {
      if agent == d.agent && revision == d.revision {
        assert AppliedKey(requests', agent, revision, r.key);
      } else {
        assert IsApplied(requests, agent, revision);
        StillApplied(requests, r, agent, revision);
      }
    }
    OneKeyEach(requests, requests', r);
  }

  lemma SameAgentsKeepCreations(s: Store, definitions: map<GRN, seq<Definition>>)
    requires CreationsOk(s.definitions, s.creations) && definitions.Keys == s.definitions.Keys
    ensures CreationsOk(definitions, s.creations)
  {
    assert forall agent :: agent in definitions <==> agent in s.definitions;
  }

  lemma ConfigureKeeps(s: Store, r: Request, d: Definition)
    requires StoreOk(s) && Permitted(s, OpConfigure(r, d))
    ensures StoreOk(Configure(s, r, d).0)
  {
    if r.key in s.requests || At(s.definitions, d.agent) == [] || s.definitions[d.agent][0].organization != d.organization {
      assert Configure(s, r, d).0 == s;
    } else if Append(s, d).Some? {
      var stored := r.(outcome := Applied(d.revision));
      assert Configure(s, r, d).0 == Append(s, d).value.(requests := s.requests[r.key := stored]);
      AppliesKeeps(s, stored, d);
    } else {
      var stored := r.(outcome := Stale);
      assert Configure(s, r, d).0 == s.(requests := s.requests[r.key := stored]);
      StaleKeeps(s, stored);
    }
  }

  lemma StaleKeeps(s: Store, r: Request)
    requires StoreOk(s) && r.key !in s.requests && r.outcome == Stale
    ensures StoreOk(s.(requests := s.requests[r.key := r]))
  {
    StaleKeepsRequests(s.definitions, s.requests, r);
  }

  lemma AppliesKeeps(s: Store, r: Request, d: Definition)
    requires StoreOk(s) && Published(s, d.organization, d.profile)
    requires r.key !in s.requests && r.agent == d.agent && r.outcome == Applied(d.revision)
    requires At(s.definitions, d.agent) != [] && s.definitions[d.agent][0].organization == d.organization && Append(s, d).Some?
    ensures StoreOk(Append(s, d).value.(requests := s.requests[r.key := r]))
  {
    AppendKeeps(s, d);
    AppliedKeepsRequests(s.definitions, s.requests, r, d);
    SameAgentsKeepCreations(s, Append(s, d).value.definitions);
  }

  /** A creation that was not registered before, and is not now, changes nothing the others show. */
  lemma UnregisteredKeeps(s: Store, key: RequestKey, c: Creation)
    requires CreationsOk(s.definitions, s.creations) && !c.outcome.Registered?
    requires key in s.creations ==> !s.creations[key].outcome.Registered?
    ensures CreationsOk(s.definitions, s.creations[key := c])
  {
    var creations := s.creations[key := c];
    assert forall agent, k :: CreatedKey(creations, agent, k) <==> CreatedKey(s.creations, agent, k);
    forall agent
      ensures IsCreated(creations, agent) <==> IsCreated(s.creations, agent)
    {
      if IsCreated(s.creations, agent) {
        var k :| CreatedKey(s.creations, agent, k);
        assert CreatedKey(creations, agent, k);
      }
    }
  }

  lemma RegisterKeepsCreations(s: Store, key: RequestKey, d: Definition)
    requires CreationsOk(s.definitions, s.creations) && RevisionsOk(s.profiles, s.definitions)
    requires d.revision == 1 && d.assignment.Some?
    ensures var s' := RegisterCreation(s, key, d).0; CreationsOk(s'.definitions, s'.creations)
  {
    var s' := RegisterCreation(s, key, d).0;
    if s' != s {
      assert CreatedKey(s'.creations, d.agent, key);
      assert d.agent !in s.definitions;
      assert !IsCreated(s.creations, d.agent);
      forall agent, k
        ensures CreatedKey(s'.creations, agent, k) <==> CreatedKey(s.creations, agent, k) || (agent == d.agent && k == key)
      {
      }
      forall agent
        ensures agent in s'.definitions <==> IsCreated(s'.creations, agent)
      {
        if k :| CreatedKey(s.creations, agent, k) {
          assert CreatedKey(s'.creations, agent, k);
        }
      }
    }
  }

  lemma RegisterKeeps(s: Store, key: RequestKey, d: Definition)
    requires StoreOk(s) && Permitted(s, OpRegisterCreation(key, d))
    ensures StoreOk(RegisterCreation(s, key, d).0)
  {
    var s' := RegisterCreation(s, key, d).0;
    RegisterKeepsCreations(s, key, d);
    if s' != s {
      AppendKeeps(s, d);
      assert RequestsOk(s'.definitions, s'.requests) by {
        forall agent, revision | agent in s'.definitions && 2 <= revision <= |s'.definitions[agent]|
          ensures IsApplied(s'.requests, agent, revision)
        {
          assert IsApplied(s.requests, agent, revision);
        }
      }
    }
  }

  // ---- Placements ----

  lemma PathCurrent(ps: map<string, Placement>, path: seq<string>)
    requires IsPath(ps, path)
    ensures path == [] ==> Current(ps).None?
    ensures path != [] ==> Last(path) in ps && Current(ps) == Some(ps[Last(path)])
    ensures forall uid :: IsCurrent(ps, uid) <==> path != [] && uid == Last(path)
  {
    forall uid | IsCurrent(ps, uid)
      ensures path != [] && uid == Last(path)
    {
      var i :| 0 <= i < |path| && path[i] == uid;
    }
    if path != [] {
      assert IsCurrent(ps, Last(path));
    }
  }

  /** A registration decided extends the path by its Pod, and nothing else does. */
  lemma PlacedExtends(ps: map<string, Placement>, path: seq<string>, input: PlacementInput)
    requires IsPath(ps, path)
    requires DecidePlacement(Current(ps), if input.request.podUID in ps then Some(ps[input.request.podUID]) else None, input)
             == Ok(PlacementRegister)
    ensures IsPath(Placed(ps, Current(ps), input), path + [input.request.podUID])
  {
    PathCurrent(ps, path);
    var ps' := Placed(ps, Current(ps), input);
    var uid := input.request.podUID;
    assert uid !in ps && ps'[uid] == Placement(input.agent, input.controller, input.request, false);
    if path == [] {
      assert ps' == ps[uid := ps'[uid]];
    } else {
      assert ps' == ps[Last(path) := ps[Last(path)].(superseded := true)][uid := ps'[uid]];
    }
    ExtendedPath(ps, ps', path, uid);
  }

  lemma ExtendedPath(ps: map<string, Placement>, ps': map<string, Placement>, path: seq<string>, uid: string)
    requires IsPath(ps, path) && uid !in ps && uid in ps' && !ps'[uid].superseded && ps'[uid].request.podUID == uid
    requires ps' == (if path == [] then ps else ps[Last(path) := ps[Last(path)].(superseded := true)])[uid := ps'[uid]]
    requires var previous := ps'[uid].request.previous;
             if path == [] then previous == NO_PREVIOUS else previous.podUID == Last(path) && previous.writerStoppedSHA256 != ""
    ensures IsPath(ps', path + [uid])
  {
    var path' := path + [uid];
    assert forall i | 0 <= i < |path| :: path[i] != uid && ps'[path[i]].request == ps[path[i]].request;
    AllNamePrevious(ps, ps', path, uid);
    AllOnPath(ps, ps', path, uid);
  }

  lemma AllNamePrevious(ps: map<string, Placement>, ps': map<string, Placement>, path: seq<string>, uid: string)
    requires forall i | 0 <= i < |path| :: NamesPrevious(ps, path, i)
    requires uid in ps' && forall i | 0 <= i < |path| :: path[i] in ps' && path[i] in ps && ps'[path[i]].request == ps[path[i]].request
    requires var previous := ps'[uid].request.previous;
             if path == [] then previous == NO_PREVIOUS else previous.podUID == Last(path) && previous.writerStoppedSHA256 != ""
    ensures forall i | 0 <= i < |path + [uid]| :: NamesPrevious(ps', path + [uid], i)
  {
    var path' := path + [uid];
    forall i | 0 <= i < |path'|
      ensures NamesPrevious(ps', path', i)
    {
      if i < |path| {
        assert NamesPrevious(ps, path, i);
      }
    }
  }

  lemma AllOnPath(ps: map<string, Placement>, ps': map<string, Placement>, path: seq<string>, uid: string)
    requires (forall other | other in ps :: other in path) && forall other | other in ps' :: other == uid || other in ps
    ensures forall other | other in ps' :: other in path + [uid]
  {
  }

  lemma PlacementKeeps(s: Store, input: PlacementInput)
    requires PlacementsOk(s.placements)
    ensures PlacementsOk(RegisterPlacement(s, input).0.placements)
  {
    var s' := RegisterPlacement(s, input).0;
    var ps := In(s.placements, input.agent);
    assert OnePath(ps) by {
      if input.agent !in s.placements {
        assert IsPath(ps, []);
      }
    }
    var path :| IsPath(ps, path);
    if s' != s {
      PlacedExtends(ps, path, input);
      assert OnePath(s'.placements[input.agent]);
    }
  }

  // ---- Recoveries ----

  lemma {:induction false} OpenIsLast(agent: GRN, rs: seq<Recovery>)
    requires RecoveryListOk(agent, rs)
    ensures OpenIn(rs).Some? <==> rs != [] && Last(rs).stage != RecoveryFinalized
    ensures OpenIn(rs).Some? ==> OpenIn(rs) == Some(OpenRecovery(Last(rs).requestID, Last(rs).epoch))
  {
    if rs != [] {
      NoneOpen(rs[..|rs| - 1]);
    }
  }

  lemma {:induction false} NoneOpen(rs: seq<Recovery>)
    requires forall i | 0 <= i < |rs| :: rs[i].stage == RecoveryFinalized
    ensures OpenIn(rs).None?
  {
    if rs != [] {
      NoneOpen(rs[..|rs| - 1]);
    }
  }

  lemma OpenKeeps(s: Store, r: Recovery)
    requires RecoveriesOk(s.recoveries) && Permitted(s, OpOpenRecovery(r))
    ensures RecoveriesOk(RecordRecovery(s, r).0.recoveries)
  {
    var s' := RecordRecovery(s, r).0;
    if s' != s {
      var rs := At(s.recoveries, r.agent);
      assert RecoveryListOk(r.agent, rs);
      OpenIsLast(r.agent, rs);
      assert RecoveryListOk(r.agent, s'.recoveries[r.agent]);
      forall a, b, i, j, key | KeyAt(s'.recoveries, a, i, key) && KeyAt(s'.recoveries, b, j, key)
        ensures a == b && i == j
      {
        assert !RecoveryAt(s, a, i, r.key) && !RecoveryAt(s, b, j, r.key);
        assert KeyAt(s.recoveries, a, i, key) || (a == r.agent && i == |rs| && key == r.key);
        assert KeyAt(s.recoveries, b, j, key) || (b == r.agent && j == |rs| && key == r.key);
      }
    }
  }

  /** A step of one recovery that leaves what it was opened with keeps the rest. */
  lemma StageKeeps(s: Store, agent: GRN, i: nat, r: Recovery)
    requires RecoveriesOk(s.recoveries) && i < |At(s.recoveries, agent)|
    requires var was := s.recoveries[agent][i];
             && r == was.(stage := r.stage, body := r.body, recovered := r.recovered)
             && was.stage != RecoveryFinalized && StagedOk(r)
    ensures RecoveriesOk(WithRecovery(s, agent, i, r).recoveries)
  {
    var s' := WithRecovery(s, agent, i, r);
    assert RecoveryListOk(agent, s.recoveries[agent]);
    assert RecoveryListOk(agent, s'.recoveries[agent]);
    forall a, b, k, j, key | KeyAt(s'.recoveries, a, k, key) && KeyAt(s'.recoveries, b, j, key)
      ensures a == b && k == j
    {
      assert KeyAt(s.recoveries, a, k, key) && KeyAt(s.recoveries, b, j, key);
    }
  }

  lemma PrepareKeeps(s: Store, agent: GRN, requestID: string, epoch: string)
    requires RecoveriesOk(s.recoveries)
    ensures RecoveriesOk(PrepareRecovery(s, agent, requestID, epoch, RecoveryBody(requestID, epoch)).0.recoveries)
  {
    var s' := PrepareRecovery(s, agent, requestID, epoch, RecoveryBody(requestID, epoch)).0;
    if s' != s {
      var i := RecoveryIndex(At(s.recoveries, agent), requestID).value;
      assert RecoveryListOk(agent, s.recoveries[agent]);
      StageKeeps(s, agent, i, s'.recoveries[agent][i]);
    }
  }

  lemma FinalizeKeeps(s: Store, agent: GRN, requestID: string, lineage: string)
    requires RecoveriesOk(s.recoveries)
    ensures RecoveriesOk(FinalizeRecovery(s, agent, requestID, lineage).0.recoveries)
  {
    var s' := FinalizeRecovery(s, agent, requestID, lineage).0;
    if s' != s {
      var i := RecoveryIndex(At(s.recoveries, agent), requestID).value;
      assert RecoveryListOk(agent, s.recoveries[agent]);
      StageKeeps(s, agent, i, s'.recoveries[agent][i]);
    }
  }

  // ---- Stops ----

  lemma StopKeeps(s: Store, stop: Stop)
    requires StopsOk(s.stops, s.stopEnds)
    ensures var s' := RecordStop(s, stop).0; StopsOk(s'.stops, s'.stopEnds)
  {
    var s' := RecordStop(s, stop).0;
    if s' != s {
      forall agent, k, l | Holds(s'.stops, agent, k) && Holds(s'.stops, agent, l)
        ensures k == l
      {
        assert !HoldsAgent(s, stop.agent, k) && !HoldsAgent(s, stop.agent, l);
        assert k != stop.key && l != stop.key ==> Holds(s.stops, agent, k) && Holds(s.stops, agent, l);
      }
      forall key | key in s'.stopEnds
        ensures EndKept(s'.stops, key, s'.stopEnds[key])
      {
        assert EndKept(s.stops, key, s.stopEnds[key]);
      }
    }
  }

  lemma DeactivationKeeps(s: Store, key: RequestKey)
    requires StopsOk(s.stops, s.stopEnds)
    ensures var s' := RecordDeactivation(s, key).0; StopsOk(s'.stops, s'.stopEnds)
  {
    if key in s.stops {
      var stops := s.stops[key := s.stops[key].(deactivated := true)];
      assert forall agent, k :: Holds(stops, agent, k) <==> Holds(s.stops, agent, k);
      assert forall k, stop :: EndKept(stops, k, stop) <==> EndKept(s.stops, k, stop);
    }
  }

  lemma StartKeeps(s: Store, agent: GRN, end: StopEnd)
    requires StopsOk(s.stops, s.stopEnds)
    ensures var s' := RecordStart(s, agent, end).0; StopsOk(s'.stops, s'.stopEnds)
  {
    var s' := RecordStart(s, agent, end).0;
    if s' != s {
      var stop := CurrentStop(s, agent).value;
      assert HoldsAgent(s, agent, stop.key);
      forall a, k, l | Holds(s'.stops, a, k) && Holds(s'.stops, a, l)
        ensures k == l
      {
        assert Holds(s.stops, a, k) && Holds(s.stops, a, l);
      }
      forall key | key in s'.stopEnds
        ensures EndKept(s'.stops, key, s'.stopEnds[key])
      {
        assert key == end.key || EndKept(s.stops, key, s.stopEnds[key]);
      }
    }
  }

  // ---- Every operation, and every run ----

  lemma CreationOpsKeep(s: Store, op: Op)
    requires StoreOk(s) && Permitted(s, op) && (op.OpBeginCreation? || op.OpFailCreation?)
    ensures StoreOk(Apply(s, op))
  {
    match op {
      case OpBeginCreation(c) =>
        if c.key !in s.creations {
          UnregisteredKeeps(s, c.key, c.(outcome := Pending));
        }
      case OpFailCreation(key, failed) =>
        if key in s.creations && s.creations[key].outcome == Pending {
          UnregisteredKeeps(s, key, s.creations[key].(outcome := failed));
        }
    }
  }

  lemma RecoveriesFrame(s: Store, s': Store)
    requires StoreOk(s) && s' == s.(recoveries := s'.recoveries, position := s'.position) && s'.position >= s.position
    requires RecoveriesOk(s'.recoveries)
    ensures StoreOk(s')
  {
  }

  lemma RecoveryOpsKeep(s: Store, op: Op)
    requires StoreOk(s) && Permitted(s, op) && (op.OpOpenRecovery? || op.OpPrepareRecovery? || op.OpFinalizeRecovery?)
    ensures StoreOk(Apply(s, op))
  {
    match op {
      case OpOpenRecovery(r) =>
        OpenKeeps(s, r);
        OpenFrame(s, r);
        RecoveriesFrame(s, RecordRecovery(s, r).0);
      case OpPrepareRecovery(agent, requestID, epoch) =>
        PrepareKeeps(s, agent, requestID, epoch);
        PrepareFrame(s, agent, requestID, epoch, RecoveryBody(requestID, epoch));
        RecoveriesFrame(s, PrepareRecovery(s, agent, requestID, epoch, RecoveryBody(requestID, epoch)).0);
      case OpFinalizeRecovery(agent, requestID, lineage) =>
        FinalizeKeeps(s, agent, requestID, lineage);
        FinalizeFrame(s, agent, requestID, lineage);
        RecoveriesFrame(s, FinalizeRecovery(s, agent, requestID, lineage).0);
    }
  }

  lemma StopsFrame(s: Store, s': Store)
    requires StoreOk(s) && s' == s.(stops := s'.stops, stopEnds := s'.stopEnds, position := s'.position) && s'.position >= s.position
    requires StopsOk(s'.stops, s'.stopEnds)
    ensures StoreOk(s')
  {
  }

  lemma StopOpsKeep(s: Store, op: Op)
    requires StoreOk(s) && Permitted(s, op) && (op.OpRecordStop? || op.OpRecordDeactivation? || op.OpRecordStart?)
    ensures StoreOk(Apply(s, op))
  {
    match op {
      case OpRecordStop(stop) =>
        StopKeeps(s, stop);
        StopFrame(s, stop);
        StopsFrame(s, RecordStop(s, stop).0);
      case OpRecordDeactivation(key) =>
        DeactivationKeeps(s, key);
        DeactivationFrame(s, key);
        StopsFrame(s, RecordDeactivation(s, key).0);
      case OpRecordStart(agent, end) =>
        StartKeeps(s, agent, end);
        StartFrame(s, agent, end);
        StopsFrame(s, RecordStart(s, agent, end).0);
    }
  }

  lemma PlacementOpKeeps(s: Store, input: PlacementInput)
    requires StoreOk(s)
    ensures StoreOk(RegisterPlacement(s, input).0)
  {
    PlacementKeeps(s, input);
    var s' := RegisterPlacement(s, input).0;
    assert s' == s.(placements := s'.placements);
  }

  lemma ActivationOpsKeep(s: Store, op: Op)
    requires StoreOk(s) && Permitted(s, op) && (op.OpInsertActivation? || op.OpRecordActivation? || op.OpRecordApplied?)
    ensures StoreOk(Apply(s, op))
  {
    var s' := Apply(s, op);
    assert s' == s.(activations := s'.activations, latest := s'.latest, applied := s'.applied);
  }

  lemma ProfilesKeep(s: Store, key: Named, settings: Settings)
    requires StoreOk(s)
    ensures StoreOk(s.(profiles := s.profiles[key := At(s.profiles, key) + [settings]]))
  {
    PublishedStays(s, key, settings);
  }

  lemma PublishVersionKeeps(s: Store, organization: string, ref: ProfileRef, settings: Settings)
    requires StoreOk(s) && ref.version >= 1
    ensures StoreOk(PublishProfileVersion(s, organization, ref, settings).0)
  {
    ProfilesKeep(s, Named(organization, ref.name), settings);
  }

  lemma ApplyKeeps(s: Store, op: Op)
    requires StoreOk(s) && Permitted(s, op)
    ensures StoreOk(Apply(s, op))
  {
    match op {
      case OpPublish(organization, name, settings) => ProfilesKeep(s, Named(organization, name), settings);
      case OpPublishVersion(organization, ref, settings) => PublishVersionKeeps(s, organization, ref, settings);
      case OpConfigure(r, d) => ConfigureKeeps(s, r, d);
      case OpBeginCreation(_) => CreationOpsKeep(s, op);
      case OpFailCreation(_, _) => CreationOpsKeep(s, op);
      case OpRegisterCreation(key, d) => RegisterKeeps(s, key, d);
      case OpRegisterPlacement(input) => PlacementOpKeeps(s, input);
      case OpOpenRecovery(_) => RecoveryOpsKeep(s, op);
      case OpPrepareRecovery(_, _, _) => RecoveryOpsKeep(s, op);
      case OpFinalizeRecovery(_, _, _) => RecoveryOpsKeep(s, op);
      case OpRecordStop(_) => StopOpsKeep(s, op);
      case OpRecordDeactivation(_) => StopOpsKeep(s, op);
      case OpRecordStart(_, _) => StopOpsKeep(s, op);
      case _ => ActivationOpsKeep(s, op);
    }
  }

  lemma EmptyOk()
    ensures StoreOk(EMPTY)
  {
  }

  lemma StepKeeps(s: Store, t: Store)
    requires StoreOk(s) && Step(s, t)
    ensures StoreOk(t)
  {
    var op :| Permitted(s, op) && t == Apply(s, op);
    ApplyKeeps(s, op);
  }

  /** Every store a run of operations reaches. */
  lemma {:induction false} RunIsOk(run: seq<Store>, i: nat)
    requires IsRun(run) && i < |run|
    ensures StoreOk(run[i])
  {
    if i == 0 {
      EmptyOk();
    } else {
      RunIsOk(run, i - 1);
      assert StepAt(run, i - 1);
      StepKeeps(run[i - 1], run[i]);
    }
  }
}
