/**
  One pass of the manager over an Agent: the fence first, then the move, then the StatefulSet; and
  the order a deleting Agent's workload is taken down in.
 */
module Workload {
  import opened Options
  import opened Cluster
  import opened Fence
  import opened Move

  function ReplicasFor(agent: Agent, plan: StatePlan): nat {
    if agent.heldStopped || plan.hold then 0 else 1
  }

  function WithSts(w: World, sts: Option<StatefulSet>): World {
    w.(sts := sts)
  }

  /** A claim template cannot be removed: a StatefulSet that lost the state claim's mounts even its
      own claim by name. */
  function MountedClaim(sts: Option<StatefulSet>, plan: StatePlan, own: Name): Option<Name> {
    if plan.claim.None? && sts.Some? && !sts.value.ownsTemplate then Some(own) else plan.claim
  }

  /** What CreateOrUpdate leaves: the claim templates are written at creation only. */
  function Rendered(w: World, agent: Agent, plan: StatePlan): StatefulSet {
    var mount := MountedClaim(w.sts, plan, OwnClaim(w.name));
    var replicas := ReplicasFor(agent, plan);
    if w.sts.Some? then w.sts.value.(replicas := replicas, mount := mount, requireStore := plan.requireStore)
    else StatefulSet(replicas, mount.None?, true, mount, plan.requireStore)
  }

  /** A StatefulSet in the shared shape, or whose template still makes a claim the memory moved off,
      is deleted, leaving its Pod; otherwise it is brought to what the plan asks. */
  function ReconcileStatefulSet(pass: Pass, agent: Agent, plan: StatePlan): Pass {
    var mount := MountedClaim(pass.w.sts, plan, OwnClaim(pass.w.name));
    if pass.w.sts.Some? && !pass.w.sts.value.workspaceTemplate then Put(pass, WithSts(pass.w, None))
    else if pass.w.sts.Some? && mount.Some? && pass.w.sts.value.ownsTemplate then Put(pass, WithSts(pass.w, None))
    else
      var rendered := Some(Rendered(pass.w, agent, plan));
      if pass.w.sts == rendered then pass else Put(pass, WithSts(pass.w, rendered))
  }

  function ReconcileWorkload(config: Config, pass: Pass, podGone: bool): Pass
    requires pass.w.agent.Some?
  {
    if !config.buildable then pass
    else
      var ready := if config.adapter && pass.w.secret.None? then Put(pass, WithPlacement(pass.w, None)) else pass;
      if !ready.running then ready
      else
        var (moved, plan) := ReconcileMove(config, ready, podGone);
        if !moved.running then moved else ReconcileStatefulSet(moved, pass.w.agent.value, plan)
  }

  function WithFinalizer(w: World, fenced: bool): World {
    match w.agent
    case None => w
    case Some(agent) => w.(agent := Some(agent.(fenced := fenced)))
  }

  function ReconcileDeletion(config: Config, pass: Pass): Pass
    requires pass.w.agent.Some?
  {
    if !pass.w.agent.value.fenced then pass
    else
      var (fenced, podGone) := ReconcileFence(config, pass);
      if !fenced.running then fenced
      else
        var deleted := if fenced.w.sts.Some? then Put(fenced, WithSts(fenced.w, None)) else fenced;
        if !deleted.running || !podGone then deleted
        else Put(deleted, WithFinalizer(deleted.w, false))
  }

  function Reconcile(config: Config, pass: Pass): Pass {
    if pass.w.agent.None? then pass
    else if pass.w.agent.value.deleting then ReconcileDeletion(config, pass)
    else
      var held := if pass.w.agent.value.fenced then pass else Put(pass, WithFinalizer(pass.w, true));
      if !held.running then held
      else
        var (fenced, podGone) := ReconcileFence(config, held);
        if !fenced.running then fenced
        else ReconcileWorkload(config, fenced, podGone)
  }

  // ---- Runs ----

  /** One reconcile with every crash point: some number of writes lands. */
  ghost predicate ManagerStep(w: World, w': World) {
    exists config: Config, writes: nat :: w' == Reconcile(config, Pass(w, writes, true)).w
  }

  ghost predicate Next(w: World, w': World) {
    ManagerStep(w, w') || Environment(w, w')
  }

  /** A run of the cluster from one with nothing of the Agent in it. */
  ghost predicate IsRun(run: seq<World>) {
    && run != [] && Initial(run[0])
    && forall i | 0 <= i < |run| - 1 :: StepAt(run, i)
  }

  ghost predicate StepAt(run: seq<World>, i: nat)
    requires i < |run| - 1
  {
    Next(run[i], run[i + 1])
  }
}
