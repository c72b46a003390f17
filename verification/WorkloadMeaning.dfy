/** What a pass that runs to its end leaves of the StatefulSet, the Agent's finalizer and the placement
    Secret, in their own fields. */
module WorkloadMeaning {
  import opened Options
  import opened Cluster
  import opened Fence
  import opened Move
  import opened Workload
  import opened Invariants
  import opened MoveSafety
  import opened RunSafety
  import opened RunProgress
  import opened MoveMeaning
  import opened ResumeLater

  /** A StatefulSet in the shared shape, or whose template still makes the state claim though another is
      mounted by name: it is deleted, and made anew by a later pass. */
  ghost predicate Replaced(sts: Option<StatefulSet>, plan: StatePlan) {
    sts.Some? && (!sts.value.workspaceTemplate || (plan.claim.Some? && sts.value.ownsTemplate))
  }

  /** Nothing is left for the StatefulSet controller to run. */
  ghost predicate RunsNothing(w: World) {
    w.sts.Some? ==> w.sts.value.replicas == 0
  }

  /** The StatefulSet once its write has landed: what the plan says of the claim and the store, one replica
      unless the agent is suspended or stopped or the plan holds it, and the templates it was made with. */
  lemma StsDecides(pass: Pass, agent: Agent, plan: StatePlan)
    requires pass.running && ReconcileStatefulSet(pass, agent, plan).running
    ensures var w' := ReconcileStatefulSet(pass, agent, plan).w;
            var was := pass.w.sts;
            && w' == pass.w.(sts := w'.sts)
            && (w'.sts.None? <==> Replaced(was, plan))
            && (w'.sts.Some? ==>
                  && w'.sts.value.replicas == (if agent.heldStopped || plan.hold then 0 else 1)
                  && w'.sts.value.requireStore == plan.requireStore && w'.sts.value.workspaceTemplate
                  && w'.sts.value.ownsTemplate == (if was.Some? then was.value.ownsTemplate else plan.claim.None?)
                  && w'.sts.value.mount == if plan.claim.Some? then plan.claim
                                           else if was.Some? && !was.value.ownsTemplate then Some("state-" + w'.name + "-0") else None)
  {
  }

  lemma WorkloadDecides(config: Config, pass: Pass, podGone: bool)
    requires pass.running && pass.w.agent.Some? && config.buildable && ReconcileWorkload(config, pass, podGone).running
    ensures var ready := if config.adapter && pass.w.secret.None? then Put(pass, WithPlacement(pass.w, None)) else pass;
            var (moved, plan) := ReconcileMove(config, ready, podGone);
            && ready.running && moved.running
            && ReconcileWorkload(config, pass, podGone) == ReconcileStatefulSet(moved, pass.w.agent.value, plan)
            && (config.adapter ==> ready.w.secret.Some?)
  {
  }

  lemma {:induction false} UseSame(w: World, w': World, name: Name, fuel: nat)
    requires w'.name == w.name && w'.claims.Keys == w.claims.Keys
    requires forall c | c in w.claims ::
               && w'.claims[c].labelled == w.claims[c].labelled && w'.claims[c].move == w.claims[c].move
               && w'.claims[c].movedTo == w.claims[c].movedTo
    ensures StateInUse(w', name, fuel) == StateInUse(w, name, fuel)
    decreases fuel
  {
    if fuel > 0 && name in w.claims && w.claims[name].movedTo.Some? {
      UseSame(w, w', w.claims[name].movedTo.value, fuel - 1);
    }
  }

  /** The Pod's name, claim and reports. */
  ghost predicate SamePod(w: World, w': World) {
    && (w'.pod.Some? <==> w.pod.Some?)
    && (w.pod.Some? ==>
          && w'.pod.value.claim == w.pod.value.claim && w'.pod.value.statuses == w.pod.value.statuses
          && w'.pod.value.readyCondition == w.pod.value.readyCondition)
  }

  /** What the fence leaves of what the rest of the pass reads. */
  lemma FenceLeaves(config: Config, pass: Pass)
    requires pass.w.agent.Some?
    ensures var (fenced, podGone) := ReconcileFence(config, pass);
            && fenced.w.agent.Some? && fenced.w.agent.value == pass.w.agent.value.(writerStopped := fenced.w.agent.value.writerStopped)
            && fenced.w.sts == pass.w.sts && fenced.w.jobs == pass.w.jobs && fenced.w.name == pass.w.name
            && InUse(fenced.w) == InUse(pass.w) && (podGone <==> pass.w.pod.None?) && (podGone ==> fenced == pass)
            && (pass.w.secret.Some? ==> fenced.w.secret.Some?) && SamePod(pass.w, fenced.w) && OnlyWriters(pass.w, fenced.w)
  {
    FenceSame(config, pass);
    if pass.w.pod.Some? {
      var p := pass.w.pod.value;
      MarkLeaves(pass, p);
      if ReadFence(pass.w, p).Ok? {
        ReleaseLeaves(config, pass, p, ReadFence(pass.w, p).value);
      }
    }
    UseSame(pass.w, ReconcileFence(config, pass).0.w, OwnClaim(pass.w.name), MAX_MOVES);
  }

  ghost predicate OnlyEvidence(w: World, w': World) {
    && w'.agent.Some? && w.agent.Some? && w'.agent.value == w.agent.value.(writerStopped := w'.agent.value.writerStopped)
    && SamePod(w, w') && w'.sts == w.sts && w'.jobs == w.jobs && w'.name == w.name && (w.secret.Some? ==> w'.secret.Some?)
  }

  lemma MarkLeaves(pass: Pass, p: Pod)
    requires pass.w.agent.Some? && pass.w.pod == Some(p)
    ensures OnlyEvidence(pass.w, RecordPlacement(pass, p).w)
  {
  }

  lemma ReleaseLeaves(config: Config, pass: Pass, p: Pod, e: Evidence)
    requires pass.w.agent.Some? && pass.w.pod == Some(p)
    ensures OnlyEvidence(pass.w, ReleaseFence(config, pass, p, e).w)
  {
    var minted := RecordEvidence(config, pass, p, e);
    MintLeaves(config, pass, p, e);
    NameLeaves(minted, p, e);
  }

  lemma MintLeaves(config: Config, pass: Pass, p: Pod, e: Evidence)
    requires pass.w.agent.Some?
    ensures OnlyEvidence(pass.w, RecordEvidence(config, pass, p, e).w) && RecordEvidence(config, pass, p, e).w.pod == pass.w.pod
  {
  }

  lemma NameLeaves(pass: Pass, p: Pod, e: Evidence)
    requires pass.w.agent.Some?
    ensures OnlyEvidence(pass.w, RecordStoppedWriter(pass, p, e).w) && RecordStoppedWriter(pass, p, e).w.pod == pass.w.pod
  {
  }

  /** A completed pass over an Agent that is not deleting, and whose workload can be built. */
  ghost predicate Completed(config: Config, w: World, writes: nat) {
    && w.agent.Some? && !w.agent.value.deleting && config.buildable
    && Reconcile(config, Pass(w, writes, true)).running
  }

  /** The pass comes to the StatefulSet with the agent and the StatefulSet as they were, and the claim in
      use too. */
  lemma CompletedParts(config: Config, w: World, writes: nat) returns (ready: Pass, podGone: bool, agent: Agent)
    requires Safe(w) && Completed(config, w, writes)
    ensures Safe(ready.w) && ready.running && InUse(ready.w) == InUse(w) && ready.w.sts == w.sts && ready.w.jobs == w.jobs
    ensures ready.w.name == w.name && (podGone <==> w.pod.None?) && (podGone ==> ready.w.pod.None?)
    ensures ready.w.agent == Some(agent) && agent.fenced
    ensures agent == w.agent.value.(fenced := true, writerStopped := agent.writerStopped)
    ensures config.adapter ==> ready.w.secret.Some?
    ensures SamePod(w, ready.w) && OnlyWriters(w, ready.w)
    ensures var (moved, plan) := ReconcileMove(config, ready, podGone);
            && moved.running && ReconcileStatefulSet(moved, agent, plan).running
            && Reconcile(config, Pass(w, writes, true)) == ReconcileStatefulSet(moved, agent, plan)
  {
    var pass := Pass(w, writes, true);
    var held := if w.agent.value.fenced then pass else Put(pass, WithFinalizer(w, true));
    FinalizerKeeps(w, true);
    UseSame(w, held.w, OwnClaim(w.name), MAX_MOVES);
    var (fenced, gone) := ReconcileFence(config, held);
    FenceLeaves(config, held);
    FenceKeeps(config, held);
    podGone, agent := gone, fenced.w.agent.value;
    ready := if config.adapter && fenced.w.secret.None? then Put(fenced, WithPlacement(fenced.w, None)) else fenced;
    PlacementKeeps(fenced.w, None);
    UseSame(fenced.w, ready.w, OwnClaim(w.name), MAX_MOVES);
    WorkloadDecides(config, fenced, podGone);
  }

  /** What the move leaves beside the claims and Jobs. */
  lemma MoveLeavesRest(config: Config, pass: Pass, podGone: bool)
    requires Safe(pass.w) && (podGone ==> pass.w.pod.None?)
    ensures var w' := ReconcileMove(config, pass, podGone).0.w;
            w'.sts == pass.w.sts && w'.name == pass.w.name && w'.agent == pass.w.agent && w'.secret == pass.w.secret
  {
    ReconcileMoveKeeps(config, pass, podGone);
  }

  /** A pass that ends leaves the Agent fenced and, where an adapter is built, a placement Secret; and a
      suspended or stopped agent, or one whose chain of moves cannot be followed, with nothing to run. */
  lemma CompletedPassKeepsHeld(config: Config, w: World, writes: nat)
    requires Safe(w) && Completed(config, w, writes)
    ensures var w' := Reconcile(config, Pass(w, writes, true)).w;
            && w'.agent.Some? && w'.agent.value.fenced && (config.adapter ==> w'.secret.Some?)
            && (w.agent.value.heldStopped || InUse(w).0.hold ==> RunsNothing(w'))
  {
    var ready, podGone, agent := CompletedParts(config, w, writes);
    var (moved, plan) := ReconcileMove(config, ready, podGone);
    MoveLeavesRest(config, ready, podGone);
    StsDecides(moved, agent, plan);
  }

  /** With no move named, it leaves an agent neither suspended nor stopped one replica on the claim in use,
      opening an existing store exactly where that is not the StatefulSet's own claim, while no Job runs,
      and nothing to run while one does or while the StatefulSet is being replaced. */
  lemma IdlePassDecides(config: Config, w: World, writes: nat)
    requires Safe(w) && Completed(config, w, writes)
    requires w.agent.value.move.None? && !w.agent.value.heldStopped && !InUse(w).0.hold
    ensures var w' := Reconcile(config, Pass(w, writes, true)).w;
            var own, inUse := "state-" + w.name + "-0", InUse(w).1;
            && (AnyJobRuns(w) ==> RunsNothing(w'))
            && (!AnyJobRuns(w) && w'.sts.Some? ==>
                  && w'.sts.value.replicas == 1 && (w'.sts.value.requireStore <==> inUse != own)
                  && (if w'.sts.value.mount.Some? then w'.sts.value.mount == Some(inUse) else inUse == own))
            && (w'.sts.None? ==> w.sts.Some? && (!w.sts.value.workspaceTemplate || (inUse != own && w.sts.value.ownsTemplate)))
  {
    var ready, podGone, agent := CompletedParts(config, w, writes);
    Open(ready.w);
    NoMoveNamed(config, ready.w, ready.left, podGone);
    assert ready == Pass(ready.w, ready.left, true);
    var (moved, plan) := ReconcileMove(config, ready, podGone);
    StsDecides(moved, agent, plan);
  }

  /** With the memory on the claim of the move the spec names, switched or about to be: a first Pod that failed
      leaves nothing to run; and otherwise the agent is left one replica on that claim, opening an existing
      store, while no Job runs and the StatefulSet is not being replaced. */
  lemma SettlingPassDecides(config: Config, w: World, writes: nat, target: Name)
    requires Safe(w) && Completed(config, w, writes) && !w.agent.value.heldStopped
    requires OnTarget(w, target) && RecordAt(w, target).phase in {Verified, Switched}
    ensures var w' := Reconcile(config, Pass(w, writes, true)).w;
            if AgentFailed(w, target) || AnyJobRuns(w) then RunsNothing(w')
            else w'.sts.Some? ==> w'.sts.value.replicas == 1 && w'.sts.value.requireStore && w'.sts.value.mount == Some(target)
  {
    var ready, podGone, agent := CompletedParts(config, w, writes);
    assert OnTarget(ready.w, target) && (AgentFailed(ready.w, target) <==> AgentFailed(w, target));
    assert ready == Pass(ready.w, ready.left, true);
    SettleDecides(config, ready.w, ready.left, podGone, target);
    var (moved, plan) := ReconcileMove(config, ready, podGone);
    StsDecides(moved, agent, plan);
  }

  // ---- What a pass leaves alone ----

  /** An Agent whose workload cannot be built is only fenced: its claims' moves, its Jobs, its StatefulSet and
      its placement Secret are left as they are, but for what a release mints. */
  lemma UnbuildableDecides(config: Config, w: World, writes: nat)
    requires w.agent.Some? && !w.agent.value.deleting && !config.buildable
    ensures var w' := Reconcile(config, Pass(w, writes, true)).w;
            && w'.sts == w.sts && w'.jobs == w.jobs && w'.claims.Keys == w.claims.Keys
            && (forall c | c in w.claims :: w'.claims[c].move == w.claims[c].move && w'.claims[c].movedTo == w.claims[c].movedTo)
  {
    var pass := Pass(w, writes, true);
    var held := if w.agent.value.fenced then pass else Put(pass, WithFinalizer(w, true));
    if held.running {
      FenceLeaves(config, held);
    }
  }

  lemma FenceKeepsSecret(config: Config, pass: Pass)
    requires !config.adapter
    ensures ReconcileFence(config, pass).0.w.secret == pass.w.secret
  {
    if pass.w.pod.Some? {
      var p := pass.w.pod.value;
      assert RecordPlacement(pass, p).w.secret == pass.w.secret;
      if ReadFence(pass.w, p).Ok? {
        ReleaseKeepsSecret(config, pass, p, ReadFence(pass.w, p).value);
      }
    }
  }

  lemma ReleaseKeepsSecret(config: Config, pass: Pass, p: Pod, e: Evidence)
    requires !config.adapter
    ensures ReleaseFence(config, pass, p, e).w.secret == pass.w.secret
  {
    var minted := RecordEvidence(config, pass, p, e);
    assert minted.w.secret == pass.w.secret;
    assert RecordStoppedWriter(minted, p, e).w.secret == minted.w.secret;
  }

  /** Where no adapter is built no placement token is minted. */
  lemma MintsForAdaptersOnly(config: Config, w: World, writes: nat)
    requires Safe(w) && !config.adapter
    ensures Reconcile(config, Pass(w, writes, true)).w.secret == w.secret
  {
    var pass := Pass(w, writes, true);
    FenceKeepsSecret(config, pass);
    if w.agent.Some? && !w.agent.value.deleting {
      var held := if w.agent.value.fenced then pass else Put(pass, WithFinalizer(w, true));
      FinalizerKeeps(w, true);
      FenceKeepsSecret(config, held);
      if held.running {
        FenceLeaves(config, held);
        FenceKeeps(config, held);
        var (fenced, podGone) := ReconcileFence(config, held);
        MoveLeavesRest(config, fenced, podGone);
        var (moved, plan) := ReconcileMove(config, fenced, podGone);
        StsKeepsSecret(moved, fenced.w.agent.value, plan);
      }
    }
  }

  lemma StsKeepsSecret(pass: Pass, agent: Agent, plan: StatePlan)
    ensures ReconcileStatefulSet(pass, agent, plan).w.secret == pass.w.secret
  {
  }

  // ---- A deleting Agent ----

  /** A pass over a deleting Agent that ends has deleted the StatefulSet, and takes the Agent's finalizer off
      exactly where no Pod was left when it began; one whose finalizer is off already is left alone. */
  lemma DeletionDecides(config: Config, w: World, writes: nat)
    requires w.agent.Some? && w.agent.value.deleting && Reconcile(config, Pass(w, writes, true)).running
    ensures var w' := Reconcile(config, Pass(w, writes, true)).w;
            if !w.agent.value.fenced then w' == w
            else w'.sts.None? && w'.agent.Some? && (w'.agent.value.fenced <==> w.pod.Some?)
  {
    FenceLeaves(config, Pass(w, writes, true));
  }
}
