/** Over whole runs: every move's record only climbs, whatever steps and wherever the manager stops. */
module RunProgress {
  import opened Options
  import opened Cluster
  import opened Fence
  import opened Move
  import opened Workload
  import opened Invariants
  import opened FenceSafety
  import opened MoveSafety
  import opened Progress
  import opened RunSafety
  import opened MoveProgress

  /** What everything but a move's own steps leaves of the claims. */
  ghost predicate MovesSame(w: World, w': World) {
    && w.claims.Keys <= w'.claims.Keys
    && forall c | c in w.claims :: w'.claims[c].labelled == w.claims[c].labelled && w'.claims[c].move == w.claims[c].move
  }

  lemma SameClimbs(w: World, w': World)
    requires MovesSame(w, w')
    ensures MovesClimb(w, w')
  {
  }

  lemma EnvironmentSame(w: World, w': World)
    requires Environment(w, w')
    ensures MovesSame(w, w')
  {
    if exists id :: JobStep(w, w', id) {
      var id :| JobStep(w, w', id);
      assert MovesSame(w, w');
    }
  }

  /** What the fence writes of the claims: who wrote last, and what it then held. */
  ghost predicate OnlyWriters(w: World, w': World) {
    && w'.claims.Keys == w.claims.Keys
    && forall c | c in w.claims :: w'.claims[c] == w.claims[c].(lastWriter := w'.claims[c].lastWriter, sealed := w'.claims[c].sealed)
  }

  lemma WriterSame(pass: Pass, name: Name, writer: LastWriter)
    requires name in pass.w.claims
    ensures OnlyWriters(pass.w, RecordLastWriter(pass, name, writer).w)
  {
  }

  lemma FenceSame(config: Config, pass: Pass)
    ensures OnlyWriters(pass.w, ReconcileFence(config, pass).0.w)
  {
    if pass.w.pod.Some? {
      var p := pass.w.pod.value;
      if !p.deleting {
        if p.pvcRecorded.None? && p.claim in pass.w.claims {
          WriterSame(pass, p.claim, LastWriter(p.uid, WriterRunning, None));
        }
      } else if p.finalizer && ReadFence(pass.w, p).Ok? {
        ReleaseSame(config, pass, p, ReadFence(pass.w, p).value);
      }
    }
  }

  lemma ReleaseSame(config: Config, pass: Pass, p: Pod, e: Evidence)
    ensures OnlyWriters(pass.w, ReleaseFence(config, pass, p, e).w)
  {
    var minted := RecordEvidence(config, pass, p, e);
    assert minted.w.claims == pass.w.claims;
    if p.claim in minted.w.claims {
      WriterSame(minted, p.claim, LastWriter(p.uid, WriterStopped, AgentExit(e.containers)));
    }
  }

  // ---- A move's part of a pass ----

  /** The claim of the move the spec names, when there is one and it is ours. */
  ghost predicate WorksOn(w: World, target: Name) {
    && !InUse(w).0.hold
    && Current(w, target) && target == TargetClaim(w.name, w.claims[target].move.value.id)
  }

  lemma ContinuesMove(config: Config, pass: Pass, podGone: bool, target: Name)
    requires Safe(pass.w) && WorksOn(pass.w, target)
    ensures Moved(pass, ReconcileMove(config, pass, podGone).0, target)
  {
    var (found, inUse) := InUse(pass.w);
    var plan := found.(hold := JobRunning(pass.w));
    RecordOf(pass.w, target);
    if inUse == target {
      InUseMounts(pass.w);
      SettleMoveWrites(pass, plan, target);
    } else {
      AdvanceMoveWrites(pass, plan, target, podGone);
    }
  }

  /** Where there is no such claim, the most a pass does is create it. */
  lemma BeginsMove(config: Config, pass: Pass, podGone: bool)
    requires forall target :: !WorksOn(pass.w, target)
    ensures var next := ReconcileMove(config, pass, podGone).0;
            next.w == pass.w
            || exists id, source | source in pass.w.claims ::
                 && TargetClaim(pass.w.name, id) !in pass.w.claims && podGone
                 && pass.left - next.left == 1 && next.w == WithTarget(pass.w, id, source)
  {
    var (found, inUse) := InUse(pass.w);
    if !found.hold && pass.w.agent.Some? && pass.w.agent.value.move.Some? {
      var id := pass.w.agent.value.move.value;
      var target := TargetClaim(pass.w.name, id);
      assert !WorksOn(pass.w, target);
      var next := ReconcileMove(config, pass, podGone).0;
      if target !in pass.w.claims && next.w != pass.w {
        assert next == BeginMove(config, pass, found.(hold := JobRunning(pass.w)), id, inUse, podGone).0;
        assert next == Put(pass, WithTarget(pass.w, id, inUse));
      }
    }
  }

  lemma ReconcileMoveClimbs(config: Config, pass: Pass, podGone: bool)
    requires Safe(pass.w)
    ensures MovesClimb(pass.w, ReconcileMove(config, pass, podGone).0.w)
  {
    var next := ReconcileMove(config, pass, podGone).0;
    if target :| WorksOn(pass.w, target) {
      ContinuesMove(config, pass, podGone, target);
      OpenMoved(pass, next, target);
    } else {
      BeginsMove(config, pass, podGone);
    }
  }

  // ---- Whole passes ----

  /** Where a part of a pass left the moves as they were, and the pod and the name for it. */
  ghost predicate Ready(pass: Pass, ready: Pass, podGone: bool) {
    && Safe(ready.w) && OnlyWriters(pass.w, ready.w) && ready.w.name == pass.w.name
    && (podGone ==> ready.w.pod.None? && ready.w.claims == pass.w.claims)
    && ready.w.live == pass.w.live && PodStays(pass.w.pod, ready.w.pod)
  }

  /** The Pod that holds the name still does, and gets no fence it does not carry. */
  ghost predicate PodStays(pod: Option<Pod>, pod': Option<Pod>) {
    && (pod'.Some? <==> pod.Some?)
    && (pod.Some? ==> pod'.value.uid == pod.value.uid && (pod'.value.finalizer ==> pod.value.finalizer))
  }

  lemma FenceReady(config: Config, pass: Pass)
    requires Safe(pass.w)
    ensures Ready(pass, ReconcileFence(config, pass).0, ReconcileFence(config, pass).1)
  {
    FenceKeeps(config, pass);
    FenceSame(config, pass);
    FenceLeavesAgent(config, pass);
    FenceLeavesName(config, pass);
  }

  lemma FenceLeavesName(config: Config, pass: Pass)
    ensures var w' := ReconcileFence(config, pass).0.w;
            w'.name == pass.w.name && w'.live == pass.w.live && PodStays(pass.w.pod, w'.pod)
  {
    if pass.w.pod.Some? {
      var p := pass.w.pod.value;
      if !p.deleting {
        PlacementLeavesName(pass, p);
      } else if p.finalizer && ReadFence(pass.w, p).Ok? {
        ReleaseLeavesName(config, pass, p, ReadFence(pass.w, p).value);
      }
    }
  }

  lemma PlacementLeavesName(pass: Pass, p: Pod)
    requires pass.w.pod == Some(p)
    ensures var w' := RecordPlacement(pass, p).w;
            w'.name == pass.w.name && w'.live == pass.w.live && PodStays(pass.w.pod, w'.pod)
  {
    if p.claim in pass.w.claims {
      var named := RecordLastWriter(pass, p.claim, LastWriter(p.uid, WriterRunning, None));
      assert named.w == pass.w.(claims := named.w.claims);
    }
  }

  lemma ReleaseLeavesName(config: Config, pass: Pass, p: Pod, e: Evidence)
    requires pass.w.pod == Some(p)
    ensures var w' := ReleaseFence(config, pass, p, e).w;
            w'.name == pass.w.name && w'.live == pass.w.live && PodStays(pass.w.pod, w'.pod)
  {
    var minted := RecordEvidence(config, pass, p, e);
    assert minted.w == pass.w.(agent := minted.w.agent, secret := minted.w.secret, clock := minted.w.clock);
    var named := RecordStoppedWriter(minted, p, e);
    assert named.w == minted.w.(claims := named.w.claims);
  }

  lemma DeletionClaims(config: Config, pass: Pass)
    requires pass.w.agent.Some?
    ensures var after := ReconcileDeletion(config, pass).w;
            var fenced := if pass.w.agent.value.fenced then ReconcileFence(config, pass).0.w else pass.w;
            after.claims == fenced.claims && after.pod == fenced.pod && after.live == fenced.live
  {
  }

  /** The world a pass hands to the move: what came before left every move as it was, and what comes
      after leaves the claims as the move left them. */
  lemma ReconcileParts(config: Config, pass: Pass) returns (ready: Pass, podGone: bool)
    requires Safe(pass.w)
    ensures Ready(pass, ready, podGone)
    ensures Reconcile(config, pass).w.pod == ready.w.pod && Reconcile(config, pass).w.live == ready.w.live
    ensures var after := Reconcile(config, pass).w;
            || after.claims == ready.w.claims
            || (ready.running && after.claims == ReconcileMove(config, ready, podGone).0.w.claims)
  {
    ready, podGone := Pass(pass.w, pass.left, false), false;
    if pass.w.agent.Some? {
      if pass.w.agent.value.deleting {
        DeletionClaims(config, pass);
        if pass.w.agent.value.fenced {
          FenceReady(config, pass);
          ready, podGone := ReconcileFence(config, pass).0, false;
        }
      } else {
        FinalizerKeeps(pass.w, true);
        var held := if pass.w.agent.value.fenced then pass else Put(pass, WithFinalizer(pass.w, true));
        ready := Pass(held.w, held.left, false);
        if held.running {
          ready, podGone := LiveParts(config, held);
        }
      }
    }
  }

  lemma LiveParts(config: Config, held: Pass) returns (ready: Pass, podGone: bool)
    requires Safe(held.w) && held.w.agent.Some?
    ensures Ready(held, ready, podGone)
    ensures var (fenced, gone) := ReconcileFence(config, held);
            var after := if fenced.running then ReconcileWorkload(config, fenced, gone).w else fenced.w;
            && after.pod == ready.w.pod && after.live == ready.w.live
            && (|| after.claims == ready.w.claims
                || (ready.running && after.claims == ReconcileMove(config, ready, podGone).0.w.claims))
  {
    FenceReady(config, held);
    FenceLeavesAgent(config, held);
    ready, podGone := ReconcileFence(config, held).0, ReconcileFence(config, held).1;
    if ready.running {
      ready := WorkloadParts(config, ready, podGone);
    }
  }

  lemma WorkloadParts(config: Config, pass: Pass, podGone: bool) returns (ready: Pass)
    requires Safe(pass.w) && pass.w.agent.Some? && (podGone ==> pass.w.pod.None?)
    ensures Safe(ready.w) && ready.w.claims == pass.w.claims && ready.w.name == pass.w.name
    ensures ready.w.pod == pass.w.pod && ready.w.live == pass.w.live
    ensures var after := ReconcileWorkload(config, pass, podGone).w;
            && after.pod == ready.w.pod && after.live == ready.w.live
            && (|| after.claims == ready.w.claims
                || (ready.running && after.claims == ReconcileMove(config, ready, podGone).0.w.claims))
  {
    PlacementKeeps(pass.w, None);
    ready := if config.buildable && config.adapter && pass.w.secret.None? then Put(pass, WithPlacement(pass.w, None)) else pass;
    if config.buildable && ready.running {
      ReconcileMoveKeeps(config, ready, podGone);
      var (moved, plan) := ReconcileMove(config, ready, podGone);
      MoveLeavesPod(ready.w, moved.w);
      StsLeaves(moved, pass.w.agent.value, plan);
    }
  }

  lemma StsLeaves(pass: Pass, agent: Agent, plan: StatePlan)
    ensures var w' := ReconcileStatefulSet(pass, agent, plan).w;
            w'.pod == pass.w.pod && w'.live == pass.w.live && w'.claims == pass.w.claims
  {
  }

  lemma MoveLeavesPod(w: World, w': World)
    requires MoveKeeps(w, w')
    ensures w'.pod == w.pod && w'.live == w.live
  {
  }

  lemma ReconcileClimbs(config: Config, pass: Pass)
    requires Safe(pass.w)
    ensures MovesClimb(pass.w, Reconcile(config, pass).w)
  {
    var ready, podGone := ReconcileParts(config, pass);
    assert MovesSame(pass.w, ready.w);
    SameClimbs(pass.w, ready.w);
    ReconcileMoveClimbs(config, ready, podGone);
    MovesClimbOn(pass.w, ready.w, ReconcileMove(config, ready, podGone).0.w);
  }

  lemma NextClimbs(w: World, w': World)
    requires Safe(w) && Next(w, w')
    ensures MovesClimb(w, w')
  {
    if ManagerStep(w, w') {
      var config: Config, writes: nat :| w' == Reconcile(config, Pass(w, writes, true)).w;
      ReconcileClimbs(config, Pass(w, writes, true));
    } else {
      EnvironmentSame(w, w');
      SameClimbs(w, w');
    }
  }

  /** In every run, whatever stops the manager: a move's claim stays, what began the move is never
      rewritten, its phase only climbs from created over copied, verified and switched to accepted,
      or ends refused, both for good; and each one-time write was made at most once. */
  lemma {:induction false} RunClimbs(run: seq<World>, i: nat, j: nat)
    requires IsRun(run) && i <= j < |run|
    ensures MovesClimb(run[i], run[j])
    ensures forall t | IsMove(run[j].claims, t) ::
              var r := run[j].claims[t].move.value; r.copyJobs <= 1 && r.checkJobs <= 1 && r.links <= 1 && r.unlinks <= 1
    decreases j
  {
    RunIsSafe(run, j);
    forall t | IsMove(run[j].claims, t)
      ensures var r := run[j].claims[t].move.value; r.copyJobs <= 1 && r.checkJobs <= 1 && r.links <= 1 && r.unlinks <= 1
    {
      RecordOf(run[j], t);
    }
    if i < j {
      RunClimbs(run, i, j - 1);
      RunIsSafe(run, j - 1);
      assert StepAt(run, j - 1);
      NextClimbs(run[j - 1], run[j]);
      MovesClimbOn(run[i], run[j - 1], run[j]);
    }
  }

  /** Every write of a pass's move is one of those its claim had left: whatever is written again and
      again after crashes, a move makes at most ten. */
  lemma MoveWritesAreSpent(config: Config, pass: Pass, podGone: bool, target: Name)
    requires Safe(pass.w) && WorksOn(pass.w, target)
    ensures var next := ReconcileMove(config, pass, podGone).0;
            && IsMove(next.w.claims, target) && next.left <= pass.left
            && pass.left - next.left <= Work(pass.w.claims[target].move.value) - Work(next.w.claims[target].move.value)
            && Work(pass.w.claims[target].move.value) <= 10
  {
    ContinuesMove(config, pass, podGone, target);
    OpenMoved(pass, ReconcileMove(config, pass, podGone).0, target);
  }
}
