/** What every run of the store keeps, read off its invariants. */
module StoreTheorems {
  import opened Options
  import opened Domain
  import opened Store
  import opened StoreSafety
  import opened StoreHistory
  import opened Feed

  /** For every sequence of registrations, an agent's placements are one path of distinct Pods that ends
      at the only one not superseded: each but the first names the Pod before it, with the digest of
      its evidence. */
  lemma PlacementsAreOnePath(run: seq<Store>, i: nat, agent: GRN)
    requires IsRun(run) && i < |run|
    ensures exists path ::
              && IsPath(In(run[i].placements, agent), path)
              && (Current(In(run[i].placements, agent)).Some? <==> path != [])
              && (path != [] ==> Current(In(run[i].placements, agent)).value.request.podUID == Last(path))
  {
    RunIsOk(run, i);
    var ps := In(run[i].placements, agent);
    assert OnePath(ps) by {
      assert agent !in run[i].placements ==> IsPath(ps, []);
    }
    var path :| IsPath(ps, path);
    PathCurrent(ps, path);
  }

  /** A superseded placement never stands again, whatever is registered: its Pod is refused. */
  lemma SupersededIsRefused(run: seq<Store>, i: nat, j: nat, input: PlacementInput)
    requires IsRun(run) && i <= j < |run|
    requires input.agent in run[i].placements && input.request.podUID in run[i].placements[input.agent]
    requires run[i].placements[input.agent][input.request.podUID].superseded
    ensures RegisterPlacement(run[j], input) == (run[j], Err(PlacementSuperseded))
    ensures Current(In(run[j].placements, input.agent)).Some? ==>
              Current(In(run[j].placements, input.agent)).value.request.podUID != input.request.podUID
  {
    RunKept(run, i, j);
    Open(run[i], run[j]);
    assert PlacementStays(run[i].placements[input.agent], run[j].placements[input.agent], input.request.podUID);
    PlacementsAreOnePath(run, j, input.agent);
    var ps := In(run[j].placements, input.agent);
    var path :| IsPath(ps, path) && (Current(ps).Some? <==> path != []);
    PathCurrent(ps, path);
  }

  /** In every reachable store, the recovery an agent's list ends with is the open one where one is
      open, and every other is finalized: the last element is "the open one, else the most recent". */
  lemma LatestRecoveryIsOpenOrLast(run: seq<Store>, i: nat, agent: GRN)
    requires IsRun(run) && i < |run|
    ensures var rs := At(run[i].recoveries, agent);
            && (if rs == [] then LatestRecovery(run[i], agent) == Err(NotFound)
                else LatestRecovery(run[i], agent) == Ok(rs[|rs| - 1]) && forall k | 0 <= k < |rs| - 1 :: rs[k].stage == RecoveryFinalized)
            && (OpenIn(rs).Some? ==>
                  && LatestRecovery(run[i], agent).Ok?
                  && OpenIn(rs) == Some(OpenRecovery(LatestRecovery(run[i], agent).value.requestID, LatestRecovery(run[i], agent).value.epoch)))
            && (forall k | 0 <= k < |rs| && rs[k].stage != RecoveryFinalized :: LatestRecovery(run[i], agent) == Ok(rs[k]))
  {
    RunIsOk(run, i);
    if agent in run[i].recoveries {
      assert RecoveryListOk(agent, run[i].recoveries[agent]);
      OpenIsLast(agent, run[i].recoveries[agent]);
    }
  }

  /** A controller that prepares a recovery under its own epoch is always answered it, with the body it
      was first prepared with: no other body can be under its id. */
  lemma PreparedAlike(run: seq<Store>, i: nat, agent: GRN, requestID: string, epoch: string)
    requires IsRun(run) && i < |run|
    ensures var (t, answer) := PrepareRecovery(run[i], agent, requestID, epoch, RecoveryBody(requestID, epoch));
            match RecoveryIndex(At(run[i].recoveries, agent), requestID)
            case None => t == run[i] && answer == Err(NotFound)
            case Some(k) =>
              if run[i].recoveries[agent][k].epoch != epoch then t == run[i] && answer == Err(RecoveryEpoch)
              else answer.Ok? && answer.value.body == RecoveryBody(requestID, epoch)
                   && (answer.value.recovered.Some? <==> answer.value.stage == RecoveryFinalized)
                   && (run[i].recoveries[agent][k].stage != RecoveryRequested ==> t == run[i] && answer.value == run[i].recoveries[agent][k])
  {
    RunIsOk(run, i);
    if agent in run[i].recoveries {
      assert RecoveryListOk(agent, run[i].recoveries[agent]);
    }
  }

  /** Every revision of every agent of every run is under a published version of its organization, is
      produced by exactly one request, the creation for the first and a configure after, and is shown
      at a position of its own. */
  lemma RevisionsAreProduced(run: seq<Store>, i: nat, agent: GRN, revision: Revision)
    requires IsRun(run) && i < |run| && 1 <= revision <= |At(run[i].definitions, agent)|
    ensures run[i].definitions[agent][revision - 1].revision == revision
    ensures run[i].definitions[agent][revision - 1].organization == run[i].definitions[agent][0].organization
    ensures Published(run[i], run[i].definitions[agent][revision - 1].organization, run[i].definitions[agent][revision - 1].profile)
    ensures if revision == 1 then exists key :: CreatedBy(run[i], agent, key) else exists key :: AppliedBy(run[i], agent, revision, key)
    ensures forall k, l | AppliedBy(run[i], agent, revision, k) && AppliedBy(run[i], agent, revision, l) :: k == l
  {
    RunIsOk(run, i);
    var s := run[i];
    assert NumberedOk(s.profiles, agent, s.definitions[agent]);
    if revision == 1 {
      assert IsCreated(s.creations, agent);
      var key :| CreatedKey(s.creations, agent, key);
      assert CreatedBy(s, agent, key);
    } else {
      assert IsApplied(s.requests, agent, revision);
      var key :| AppliedKey(s.requests, agent, revision, key);
      assert AppliedBy(s, agent, revision, key);
    }
    forall k, l | AppliedBy(s, agent, revision, k) && AppliedBy(s, agent, revision, l)
      ensures k == l
    {
      assert AppliedKey(s.requests, agent, revision, k) && AppliedKey(s.requests, agent, revision, l);
    }
  }

  /** At most one stop holds an agent, in every reachable store. */
  lemma OneStopHolds(run: seq<Store>, i: nat, agent: GRN)
    requires IsRun(run) && i < |run|
    ensures forall k, l | HoldsAgent(run[i], agent, k) && HoldsAgent(run[i], agent, l) :: k == l
  {
    RunIsOk(run, i);
    forall k, l | HoldsAgent(run[i], agent, k) && HoldsAgent(run[i], agent, l)
      ensures k == l
    {
      assert Holds(run[i].stops, agent, k) && Holds(run[i].stops, agent, l);
    }
  }
}
