/**
  A claim the memory moved off, and the StatefulSet that may still make a Pod on it. The name on the
  source is written before the StatefulSet is, so the order is safe only where the StatefulSet no longer
  runs on the source by then: exactly there no Pod is ever made on a claim the memory left.
 */
module Abandoned {
  import opened Options
  import opened Cluster
  import opened Fence
  import opened Move
  import opened Workload
  import opened Invariants
  import opened MoveSafety
  import opened Progress
  import opened RunSafety
  import opened RunProgress
  import opened SwitchSafety
  import opened Chain
  import opened SampleRuns

  /** The memory moved nowhere from the claim. */
  ghost predicate Free(claims: map<Name, Claim>, name: Name) {
    name in claims ==> claims[name].movedTo.None?
  }

  /** The claim the StatefulSet's next Pod would be made on. */
  function NextClaim(name: Name, sts: StatefulSet): Name {
    if sts.mount.Some? then sts.mount.value else OwnClaim(name)
  }

  /** A StatefulSet that runs at all runs on a claim the memory has not left. */
  ghost predicate RunsOnUse(w: World) {
    w.sts.Some? && w.sts.value.replicas > 0 ==> Free(w.claims, NextClaim(w.name, w.sts.value))
  }

  ghost predicate StillRuns(w: World, name: Name) {
    w.sts.Some? && w.sts.value.replicas > 0 && NextClaim(w.name, w.sts.value) == name
  }

  /** The move is linked while the StatefulSet still runs on its source. */
  ghost predicate LinksRunning(w: World, w': World) {
    exists t :: LinksRunningAt(w, w', t)
  }

  ghost predicate LinksRunningAt(w: World, w': World, t: Name) {
    && IsMove(w.claims, t) && IsMove(w'.claims, t)
    && w.claims[t].move.value.linkedAt.None? && w'.claims[t].move.value.linkedAt.Some?
    && StillRuns(w, w.claims[t].move.value.source)
  }

  /** The condition, at the one write: linking a move keeps the StatefulSet off claims the memory left
      exactly where it does not run on the move's source. */
  lemma LinkKeepsUse(w: World, target: Name)
    requires Safe(w) && MayLink(w, target, true) && RunsOnUse(w)
    ensures var source := Record(w, target).source;
            RunsOnUse(WithLink(w, source, target, true)) <==> !StillRuns(w, source)
  {
    UnlinkedIsFree(w, target);
  }

  /** And where it does not hold, with the name free, a Pod may be made on a claim the memory left. */
  lemma PodMayStartAbandoned(w: World) returns (w': World)
    requires w.pod.None? && w.sts.Some? && w.sts.value.replicas == 1 && !RunsOnUse(w)
    ensures PodCreatedStep(w, w')
    ensures var c := w'.pod.value.claim; c == NextClaim(w.name, w.sts.value) && c in w.claims && w.claims[c].movedTo.Some?
    ensures w'.claims.Keys == w.claims.Keys && forall c | c in w.claims :: w'.claims[c] == w.claims[c].(mountedBy := w'.claims[c].mountedBy)
    ensures w'.name == w.name
  {
    var name := NextClaim(w.name, w.sts.value);
    var uid := w.clock + 1;
    var pod := Pod(uid, uid, name, [], [ContainerSpec(AGENT_CONTAINER, false)], None, false, true, None, map[], Pending, [], false, {});
    w' := w.(pod := Some(pod), claims := w.claims[name := w.claims[name].(mountedBy := Some(uid))],
             live := w.live[uid := {}], clock := w.clock + 2);
  }

  // ---- A pass ----

  /** Only names for where the memory moved are taken off. */
  ghost predicate NamesOnlyGo(w: World, w': World) {
    && w'.sts == w.sts && w'.name == w.name && w.claims.Keys <= w'.claims.Keys
    && (forall c | c in w.claims :: w'.claims[c].movedTo.None? || w'.claims[c].movedTo == w.claims[c].movedTo)
    && (forall t | IsMove(w.claims, t) :: IsMove(w'.claims, t) && w'.claims[t].move.value.linkedAt == w.claims[t].move.value.linkedAt)
    && (forall c | c in w'.claims && c !in w.claims :: w'.claims[c].movedTo.None?)
  }

  lemma NamesGoOn(w: World, w1: World, w2: World)
    requires NamesOnlyGo(w, w1) && NamesOnlyGo(w1, w2)
    ensures NamesOnlyGo(w, w2)
  {
  }

  /** A plan that does not hold the agent is for a claim the memory has not left. */
  ghost predicate PlanFree(w: World, plan: StatePlan) {
    plan.hold || Free(w.claims, if plan.claim.Some? then plan.claim.value else OwnClaim(w.name))
  }

  lemma StaysFree(w: World, w': World, plan: StatePlan)
    requires NamesOnlyGo(w, w') && PlanFree(w, plan)
    ensures PlanFree(w', plan)
  {
  }

  lemma RecordNames(pass: Pass, target: Name, r: MoveRecord)
    requires IsMove(pass.w.claims, target) && r.linkedAt == Record(pass.w, target).linkedAt
    ensures var w' := WithRecord(pass.w, target, r);
            NamesOnlyGo(pass.w, w') && NamesOnlyGo(pass.w, Put(pass, w').w)
  {
  }

  lemma RestoreNames(pass: Pass, target: Name)
    requires IsMove(pass.w.claims, target)
    ensures var (next, plan) := RestoreSource(pass, target);
            NamesOnlyGo(pass.w, next.w) && (next.running ==> PlanFree(next.w, plan))
  {
  }

  lemma PodNames(pass: Pass, given: StatePlan, target: Name)
    requires IsMove(pass.w.claims, target) && PlanFree(pass.w, given)
    ensures var (next, plan) := SettlePod(pass, given, target);
            NamesOnlyGo(pass.w, next.w) && (next.running ==> PlanFree(next.w, plan))
  {
    var r := Record(pass.w, target);
    if pass.w.pod.Some? && pass.w.pod.value.claim == target && ExitedNonZero(pass.w.pod.value) {
      var refused := Put(pass, WithPhase(pass.w, target, Refused));
      RecordNames(pass, target, r.(phase := Refused));
      if refused.running {
        RestoreNames(refused, target);
        NamesGoOn(pass.w, refused.w, RestoreSource(refused, target).0.w);
      }
    } else {
      RecordNames(pass, target, r.(phase := Accepted));
      StaysFree(pass.w, Put(pass, WithPhase(pass.w, target, Accepted)).w, given);
    }
  }

  lemma SettleNames(pass: Pass, given: StatePlan, target: Name)
    requires IsMove(pass.w.claims, target) && PlanFree(pass.w, given)
    ensures var (next, plan) := SettleMove(pass, given, target);
            NamesOnlyGo(pass.w, next.w) && (next.running ==> PlanFree(next.w, plan))
  {
    var r := Record(pass.w, target);
    match r.phase {
      case Verified =>
        var switched := Put(pass, WithPhase(pass.w, target, Switched));
        RecordNames(pass, target, r.(phase := Switched));
        if switched.running {
          StaysFree(pass.w, switched.w, given);
          PodNames(switched, given, target);
          NamesGoOn(pass.w, switched.w, SettlePod(switched, given, target).0.w);
        }
      case Switched => PodNames(pass, given, target);
      case Accepted =>
      case Refused => RestoreNames(pass, target);
      case _ => RecordNames(pass, target, r.(phase := Refused));
    }
  }

  lemma CopyNames(pass: Pass, target: Name)
    requires IsMove(pass.w.claims, target)
    ensures NamesOnlyGo(pass.w, RunCopy(pass, target).w)
  {
    var (next, outcome) := EnsureJob(pass, target, Copy);
    EnsureNames(pass, target, Copy);
    var r := Record(next.w, target);
    RecordNames(next, target, r.(phase := Refused));
    if outcome.Ended? {
      RecordNames(next, target, r.(digest := outcome.report.source, phase := Copied));
    }
    NamesGoOn(pass.w, next.w, RunCopy(pass, target).w);
  }

  lemma VerifyNames(pass: Pass, target: Name)
    requires IsMove(pass.w.claims, target)
    ensures NamesOnlyGo(pass.w, RunVerify(pass, target).w)
  {
    var (next, outcome) := EnsureJob(pass, target, Verify);
    EnsureNames(pass, target, Verify);
    var r := Record(next.w, target);
    RecordNames(next, target, r.(phase := Refused));
    RecordNames(next, target, r.(phase := Verified));
    NamesGoOn(pass.w, next.w, RunVerify(pass, target).w);
  }

  lemma EnsureNames(pass: Pass, target: Name, step: Step)
    requires IsMove(pass.w.claims, target)
    ensures NamesOnlyGo(pass.w, EnsureJob(pass, target, step).0.w)
  {
    var marked := Put(pass, WithMark(pass.w, target, step));
    var r := Record(pass.w, target);
    RecordNames(pass, target, if step == Copy then r.(copyStarted := true) else r.(checkStarted := true));
    if marked.running {
      JobNames(marked, target, step);
      NamesGoOn(pass.w, marked.w, Put(marked, WithJob(marked.w, target, step)).w);
    }
  }

  lemma JobNames(pass: Pass, target: Name, step: Step)
    requires IsMove(pass.w.claims, target)
    ensures NamesOnlyGo(pass.w, Put(pass, WithJob(pass.w, target, step)).w)
  {
    var r := Record(pass.w, target);
    RecordNames(pass, target, if step == Copy then r.(copyJobs := r.copyJobs + 1) else r.(checkJobs := r.checkJobs + 1));
  }

  /** The claim of the move the spec names is left by no other: a move from it would have been linked
      after its claim was created. */
  lemma NamedIsFree(w: World, target: Name)
    requires Safe(w) && Current(w, target)
    ensures Free(w.claims, target)
  {
    Open(w);
    RecordOf(w, target);
    var movedTo := w.claims[target].movedTo;
    assert movedTo.Some? ==> Named(w.claims, target);
    assert movedTo.Some? ==> Recorded(w.name, w.claims, movedTo.value) && ClaimClocked(w.claims[movedTo.value], w.clock);
    assert Recorded(w.name, w.claims, target);
  }

  lemma SwitchNames(pass: Pass, target: Name)
    requires Safe(pass.w) && Current(pass.w, target) && pass.w.claims[target].move.value.phase == Verified
    requires RunsOnUse(pass.w) && !LinksRunning(pass.w, SwitchMove(pass, target).0.w)
    ensures var (next, plan) := SwitchMove(pass, target);
            RunsOnUse(next.w) && (next.running ==> PlanFree(next.w, plan))
  {
    NamedIsFree(pass.w, target);
    NamedOrFree(pass.w, target);
    RecordOf(pass.w, target);
    var next := SwitchMove(pass, target).0.w;
    var linked := LinkMove(pass, Record(pass.w, target).source, target, true);
    if linked.running {
      SettleNames(linked, StatePlan(Some(target), true, false), target);
      if !OnChain(pass.w, target) {
        LinkKeepsUse(pass.w, target);
        assert !LinksRunningAt(pass.w, next, target);
      }
    }
  }

  lemma AdvanceNames(pass: Pass, given: StatePlan, target: Name, podGone: bool)
    requires Safe(pass.w) && Current(pass.w, target)
    requires RunsOnUse(pass.w) && !LinksRunning(pass.w, AdvanceMove(pass, given, target, podGone).0.w)
    ensures var (next, plan) := AdvanceMove(pass, given, target, podGone);
            RunsOnUse(next.w) && (next.running ==> PlanFree(next.w, plan))
  {
    var record := Record(pass.w, target);
    RecordNames(pass, target, record.(phase := Refused));
    if record.phase !in {Refused, Switched, Accepted} && podGone && SourceUnchanged(pass.w, record) {
      match record.phase {
        case Created => CopyNames(pass, target);
        case Copied => VerifyNames(pass, target);
        case _ => SwitchNames(pass, target);
      }
    }
  }

  lemma UseIsFree(w: World)
    requires Safe(w)
    ensures PlanFree(w, InUse(w).0)
    ensures !InUse(w).0.hold ==> PlanFree(w, InUse(w).0.(hold := JobRunning(w)))
  {
    Open(w);
    InUseFacts(w);
  }

  lemma MoveKeepsUse(config: Config, pass: Pass, podGone: bool)
    requires Safe(pass.w) && RunsOnUse(pass.w)
    requires !LinksRunning(pass.w, ReconcileMove(config, pass, podGone).0.w)
    ensures var (next, plan) := ReconcileMove(config, pass, podGone);
            RunsOnUse(next.w) && (next.running ==> PlanFree(next.w, plan))
  {
    UseIsFree(pass.w);
    var (found, inUse) := InUse(pass.w);
    if !found.hold && pass.w.agent.Some? && pass.w.agent.value.move.Some? {
      var plan := found.(hold := JobRunning(pass.w));
      var target := TargetClaim(pass.w.name, pass.w.agent.value.move.value);
      if target in pass.w.claims && Ours(pass.w.claims[target]) && Record(pass.w, target).id == pass.w.agent.value.move.value {
        if inUse == target {
          SettleNames(pass, plan, target);
        } else {
          AdvanceNames(pass, plan, target, podGone);
        }
      }
    }
  }

  lemma StsKeepsUse(pass: Pass, agent: Agent, plan: StatePlan)
    requires RunsOnUse(pass.w) && PlanFree(pass.w, plan)
    ensures RunsOnUse(ReconcileStatefulSet(pass, agent, plan).w)
  {
  }

  /** What comes before the move in a pass leaves the StatefulSet, and every name on a claim. */
  ghost predicate SameNames(w: World, w': World) {
    && w'.sts == w.sts && w'.name == w.name && w'.claims.Keys == w.claims.Keys
    && forall c | c in w.claims ::
         w'.claims[c].movedTo == w.claims[c].movedTo && w'.claims[c].move == w.claims[c].move && w'.claims[c].labelled == w.claims[c].labelled
  }

  lemma FenceNames(config: Config, pass: Pass)
    ensures SameNames(pass.w, ReconcileFence(config, pass).0.w)
  {
    FenceSame(config, pass);
    if pass.w.pod.Some? {
      var p := pass.w.pod.value;
      assert RecordPlacement(pass, p).w.sts == pass.w.sts && RecordPlacement(pass, p).w.name == pass.w.name;
      if ReadFence(pass.w, p).Ok? {
        ReleaseLeavesSts(config, pass, p, ReadFence(pass.w, p).value);
      }
    }
  }

  lemma ReleaseLeavesSts(config: Config, pass: Pass, p: Pod, e: Evidence)
    ensures ReleaseFence(config, pass, p, e).w.sts == pass.w.sts && ReleaseFence(config, pass, p, e).w.name == pass.w.name
  {
    var minted := RecordEvidence(config, pass, p, e);
    assert minted.w.sts == pass.w.sts && minted.w.name == pass.w.name;
    var named := RecordStoppedWriter(minted, p, e);
    assert named.w.sts == pass.w.sts && named.w.name == pass.w.name;
  }

  lemma SameNamesLink(w: World, w1: World, w': World, last: World)
    requires SameNames(w, w1) && last.claims == w'.claims
    requires !LinksRunning(w, last)
    ensures !LinksRunning(w1, w')
    ensures RunsOnUse(w) ==> RunsOnUse(w1)
  {
    forall t | LinksRunningAt(w1, w', t)
      ensures false
    {
      assert LinksRunningAt(w, last, t);
    }
  }

  lemma WorkloadKeepsUse(config: Config, pass: Pass, podGone: bool)
    requires Safe(pass.w) && pass.w.agent.Some? && RunsOnUse(pass.w)
    requires !LinksRunning(pass.w, ReconcileWorkload(config, pass, podGone).w)
    ensures RunsOnUse(ReconcileWorkload(config, pass, podGone).w)
  {
    if config.buildable {
      PlacementKeeps(pass.w, None);
      var ready := if config.adapter && pass.w.secret.None? then Put(pass, WithPlacement(pass.w, None)) else pass;
      if ready.running {
        var (moved, plan) := ReconcileMove(config, ready, podGone);
        StsLeaves(moved, pass.w.agent.value, plan);
        SameNamesLink(pass.w, ready.w, moved.w, ReconcileWorkload(config, pass, podGone).w);
        MoveKeepsUse(config, ready, podGone);
        if moved.running {
          StsKeepsUse(moved, pass.w.agent.value, plan);
        }
      }
    }
  }

  lemma LivePassKeepsUse(config: Config, held: Pass)
    requires Safe(held.w) && held.w.agent.Some? && RunsOnUse(held.w)
    requires var (fenced, podGone) := ReconcileFence(config, held);
             !LinksRunning(held.w, if fenced.running then ReconcileWorkload(config, fenced, podGone).w else fenced.w)
    ensures var (fenced, podGone) := ReconcileFence(config, held);
            RunsOnUse(if fenced.running then ReconcileWorkload(config, fenced, podGone).w else fenced.w)
  {
    var (fenced, podGone) := ReconcileFence(config, held);
    var after := if fenced.running then ReconcileWorkload(config, fenced, podGone).w else fenced.w;
    FenceNames(config, held);
    FenceKeeps(config, held);
    SameNamesLink(held.w, fenced.w, after, after);
    if fenced.running {
      WorkloadKeepsUse(config, fenced, podGone);
    }
  }

  lemma DeletionKeepsUse(config: Config, pass: Pass)
    requires pass.w.agent.Some? && RunsOnUse(pass.w)
    ensures RunsOnUse(ReconcileDeletion(config, pass).w)
  {
    FenceNames(config, pass);
  }

  /** A pass, wherever it stopped, that links no move whose source the StatefulSet still runs on. */
  lemma ReconcileKeepsUse(config: Config, pass: Pass)
    requires Safe(pass.w) && RunsOnUse(pass.w) && !LinksRunning(pass.w, Reconcile(config, pass).w)
    ensures RunsOnUse(Reconcile(config, pass).w)
  {
    if pass.w.agent.Some? {
      if pass.w.agent.value.deleting {
        DeletionKeepsUse(config, pass);
      } else {
        var held := if pass.w.agent.value.fenced then pass else Put(pass, WithFinalizer(pass.w, true));
        FinalizerKeeps(pass.w, true);
        SameNamesLink(pass.w, held.w, Reconcile(config, pass).w, Reconcile(config, pass).w);
        if held.running {
          LivePassKeepsUse(config, held);
        }
      }
    }
  }

  // ---- A pass, both ways ----

  lemma SwitchPlanFree(pass: Pass, target: Name)
    requires Safe(pass.w) && Current(pass.w, target) && pass.w.claims[target].move.value.phase == Verified
    ensures var (next, plan) := SwitchMove(pass, target); next.running ==> PlanFree(next.w, plan)
  {
    NamedIsFree(pass.w, target);
    NamedOrFree(pass.w, target);
    RecordOf(pass.w, target);
    var linked := LinkMove(pass, Record(pass.w, target).source, target, true);
    if linked.running {
      SettleNames(linked, StatePlan(Some(target), true, false), target);
    }
  }

  lemma AdvancePlanFree(pass: Pass, given: StatePlan, target: Name, podGone: bool)
    requires Safe(pass.w) && Current(pass.w, target)
    ensures var (next, plan) := AdvanceMove(pass, given, target, podGone); next.running ==> PlanFree(next.w, plan)
  {
    if Record(pass.w, target).phase == Verified {
      SwitchPlanFree(pass, target);
    }
  }

  lemma MovePlanFree(config: Config, pass: Pass, podGone: bool)
    requires Safe(pass.w) && (podGone ==> pass.w.pod.None?)
    ensures var (next, plan) := ReconcileMove(config, pass, podGone);
            next.w.sts == pass.w.sts && (next.running ==> PlanFree(next.w, plan))
  {
    ReconcileMoveKeeps(config, pass, podGone);
    UseIsFree(pass.w);
    var (found, inUse) := InUse(pass.w);
    if !found.hold && pass.w.agent.Some? && pass.w.agent.value.move.Some? {
      var plan := found.(hold := JobRunning(pass.w));
      var target := TargetClaim(pass.w.name, pass.w.agent.value.move.value);
      if target in pass.w.claims && Ours(pass.w.claims[target]) && Record(pass.w, target).id == pass.w.agent.value.move.value {
        if inUse == target {
          SettleNames(pass, plan, target);
        } else {
          AdvancePlanFree(pass, plan, target, podGone);
        }
      }
    }
  }

  /** A StatefulSet the pass writes runs on a claim the memory has not left. */
  lemma WrittenStsRunsOnUse(pass: Pass, agent: Agent, plan: StatePlan)
    requires PlanFree(pass.w, plan) && ReconcileStatefulSet(pass, agent, plan).w.sts != pass.w.sts
    ensures RunsOnUse(ReconcileStatefulSet(pass, agent, plan).w)
  {
  }

  lemma WorkloadWritesUse(config: Config, pass: Pass, podGone: bool)
    requires Safe(pass.w) && pass.w.agent.Some? && (podGone ==> pass.w.pod.None?)
    requires ReconcileWorkload(config, pass, podGone).w.sts != pass.w.sts
    ensures RunsOnUse(ReconcileWorkload(config, pass, podGone).w)
  {
    PlacementKeeps(pass.w, None);
    var ready := if config.adapter && pass.w.secret.None? then Put(pass, WithPlacement(pass.w, None)) else pass;
    MovePlanFree(config, ready, podGone);
    var (moved, plan) := ReconcileMove(config, ready, podGone);
    WrittenStsRunsOnUse(moved, pass.w.agent.value, plan);
  }

  lemma PassWritesUse(config: Config, pass: Pass)
    requires Safe(pass.w) && Reconcile(config, pass).w.sts != pass.w.sts
    ensures RunsOnUse(Reconcile(config, pass).w)
  {
    FenceNames(config, pass);
    if !pass.w.agent.value.deleting {
      var held := if pass.w.agent.value.fenced then pass else Put(pass, WithFinalizer(pass.w, true));
      FinalizerKeeps(pass.w, true);
      var (fenced, podGone) := ReconcileFence(config, held);
      FenceNames(config, held);
      FenceKeeps(config, held);
      FenceLeavesAgent(config, held);
      WorkloadWritesUse(config, fenced, podGone);
    }
  }

  lemma SwitchLeavesName(pass: Pass, target: Name)
    requires Safe(pass.w) && Current(pass.w, target) && pass.w.claims[target].move.value.phase == Verified && pass.w.pod.None?
    requires pass.w.claims[target].move.value.linkedAt.None?
    ensures StillNames(pass.w, SwitchMove(pass, target).0.w, target)
  {
    UnlinkedIsFree(pass.w, target);
    NamedOrFree(pass.w, target);
    var linked := LinkMove(pass, Record(pass.w, target).source, target, true);
    assert linked.running ==> linked.w.claims[Record(pass.w, target).source].movedTo == Some(target);
  }

  /** A move a pass linked is named by its source when the pass is over. */
  ghost predicate StillNames(w: World, w': World, t: Name) {
    && IsMove(w.claims, t) && IsMove(w'.claims, t)
    && var r := w.claims[t].move.value;
    && (w'.claims[t].move.value.linkedAt.Some? ==> r.source in w'.claims && w'.claims[r.source].movedTo == Some(t))
  }

  lemma AdvanceLeavesName(pass: Pass, given: StatePlan, target: Name, podGone: bool)
    requires Safe(pass.w) && Current(pass.w, target) && pass.w.claims[target].move.value.linkedAt.None? && pass.w.pod.None?
    ensures StillNames(pass.w, AdvanceMove(pass, given, target, podGone).0.w, target)
  {
    CopyDoesNotLink(pass, target);
    VerifyDoesNotLink(pass, target);
    if Record(pass.w, target).phase == Verified {
      SwitchLeavesName(pass, target);
    }
  }

  lemma MoveLeavesName(config: Config, pass: Pass, podGone: bool, t: Name)
    requires Safe(pass.w) && IsMove(pass.w.claims, t) && pass.w.claims[t].move.value.linkedAt.None? && pass.w.pod.None?
    ensures StillNames(pass.w, ReconcileMove(config, pass, podGone).0.w, t)
  {
    RecordOf(pass.w, t);
    InUseMounts(pass.w);
    if WorksOn(pass.w, t) {
      var plan := InUse(pass.w).0.(hold := JobRunning(pass.w));
      assert ReconcileMove(config, pass, podGone) == AdvanceMove(pass, plan, t, podGone);
      AdvanceLeavesName(pass, plan, t, podGone);
    } else if exists target :: WorksOn(pass.w, target) {
      var target :| WorksOn(pass.w, target);
      ContinuesMove(config, pass, podGone, target);
      OpenMoved(pass, ReconcileMove(config, pass, podGone).0, target);
    } else {
      RunProgress.BeginsMove(config, pass, podGone);
    }
  }

  lemma PassLeavesName(config: Config, w: World, writes: nat, t: Name)
    requires Safe(w) && LinksRunningAt(w, Reconcile(config, Pass(w, writes, true)).w, t)
    ensures var w' := Reconcile(config, Pass(w, writes, true)).w;
            w.claims[t].move.value.source in w'.claims && w'.claims[w.claims[t].move.value.source].movedTo == Some(t)
  {
    var pass := Pass(w, writes, true);
    SwitchIsFaithful(config, w, writes, t);
    var ready, podGone := ReconcileParts(config, pass);
    MoveLeavesName(config, ready, podGone, t);
  }

  /** A pass, wherever it stops, that begins with the StatefulSet running on no claim the memory left ends
      with it running on one exactly when it linked a move over a StatefulSet running on the source, and did
      not come to write the StatefulSet. */
  lemma PassLosesUse(config: Config, w: World, writes: nat)
    requires Safe(w) && RunsOnUse(w)
    ensures var w' := Reconcile(config, Pass(w, writes, true)).w;
            !RunsOnUse(w') <==> LinksRunning(w, w') && w'.sts == w.sts
  {
    var pass := Pass(w, writes, true);
    var w' := Reconcile(config, pass).w;
    if !LinksRunning(w, w') {
      ReconcileKeepsUse(config, pass);
    } else if w'.sts != w.sts {
      PassWritesUse(config, pass);
    } else {
      var t :| LinksRunningAt(w, w', t);
      PassLeavesName(config, w, writes, t);
      ReconcileLeavesName(config, pass);
    }
  }

  lemma WorkloadLeavesName(config: Config, pass: Pass, podGone: bool)
    requires Safe(pass.w) && pass.w.agent.Some? && (podGone ==> pass.w.pod.None?)
    ensures ReconcileWorkload(config, pass, podGone).w.name == pass.w.name
  {
    if config.buildable {
      PlacementKeeps(pass.w, None);
      var ready := if config.adapter && pass.w.secret.None? then Put(pass, WithPlacement(pass.w, None)) else pass;
      ReconcileMoveKeeps(config, ready, podGone);
      var (moved, plan) := ReconcileMove(config, ready, podGone);
      StsLeavesName(moved, pass.w.agent.value, plan);
    }
  }

  lemma StsLeavesName(pass: Pass, agent: Agent, plan: StatePlan)
    ensures ReconcileStatefulSet(pass, agent, plan).w.name == pass.w.name
  {
  }

  lemma ReconcileLeavesName(config: Config, pass: Pass)
    requires Safe(pass.w)
    ensures Reconcile(config, pass).w.name == pass.w.name
  {
    FenceNames(config, pass);
    if pass.w.agent.Some? && !pass.w.agent.value.deleting {
      var held := if pass.w.agent.value.fenced then pass else Put(pass, WithFinalizer(pass.w, true));
      FinalizerKeeps(pass.w, true);
      var (fenced, podGone) := ReconcileFence(config, held);
      FenceNames(config, held);
      FenceKeeps(config, held);
      FenceLeavesAgent(config, held);
      WorkloadLeavesName(config, fenced, podGone);
    }
  }

  lemma EnvironmentKeepsUse(w: World, w': World)
    requires Environment(w, w') && RunsOnUse(w)
    ensures RunsOnUse(w')
  {
    assert w'.sts == w.sts && w'.name == w.name;
    if exists id :: JobStep(w, w', id) {
      var id :| JobStep(w, w', id);
    }
  }

  // ---- A run ----

  lemma NextKeepsUse(w: World, w': World)
    requires Safe(w) && Next(w, w') && RunsOnUse(w) && !LinksRunning(w, w')
    ensures RunsOnUse(w')
  {
    if ManagerStep(w, w') {
      var config: Config, writes: nat :| w' == Reconcile(config, Pass(w, writes, true)).w;
      ReconcileKeepsUse(config, Pass(w, writes, true));
    } else {
      EnvironmentKeepsUse(w, w');
    }
  }

  ghost predicate LinksRunningIn(run: seq<World>, j: nat)
    requires j < |run| - 1
  {
    LinksRunning(run[j], run[j + 1])
  }

  /** In every run in which no move was linked while the StatefulSet ran on its source, the StatefulSet
      never runs on a claim the memory left, and no Pod is made on one. */
  lemma {:induction false} NoPodOnAbandoned(run: seq<World>, i: nat)
    requires IsRun(run) && i < |run| && forall j | 0 <= j < i :: !LinksRunningIn(run, j)
    ensures RunsOnUse(run[i])
    ensures i + 1 < |run| && run[i].pod.None? && run[i + 1].pod.Some? ==> Free(run[i].claims, run[i + 1].pod.value.claim)
  {
    if i > 0 {
      NoPodOnAbandoned(run, i - 1);
      RunIsSafe(run, i - 1);
      assert StepAt(run, i - 1) && !LinksRunningIn(run, i - 1);
      NextKeepsUse(run[i - 1], run[i]);
    }
    if i + 1 < |run| && run[i].pod.None? && run[i + 1].pod.Some? {
      RunIsSafe(run, i);
      assert StepAt(run, i);
      PodIsMadeOnNext(run[i], run[i + 1]);
    }
  }

  lemma PodIsMadeOnNext(w: World, w': World)
    requires Safe(w) && Next(w, w') && w.pod.None? && w'.pod.Some?
    ensures w.sts.Some? && w.sts.value.replicas == 1 && w'.pod.value.claim == NextClaim(w.name, w.sts.value)
  {
    if ManagerStep(w, w') {
      var config: Config, writes: nat :| w' == Reconcile(config, Pass(w, writes, true)).w;
      var ready, podGone := ReconcileParts(config, Pass(w, writes, true));
      assert false;
    }
  }

  /** A pass that runs to its end on a move, and does not link it, leaves nothing for the StatefulSet to
      run: only passes that all stopped short can link a move over one that does. */
  lemma CompletedPassParks(config: Config, pass: Pass, podGone: bool, agent: Agent, target: Name)
    requires Safe(pass.w) && WorksOn(pass.w, target) && pass.w.claims[target].move.value.linkedAt.None?
    requires var (moved, plan) := ReconcileMove(config, pass, podGone);
             && moved.running && IsMove(moved.w.claims, target) && moved.w.claims[target].move.value.linkedAt.None?
             && ReconcileStatefulSet(moved, agent, plan).running
    ensures var (moved, plan) := ReconcileMove(config, pass, podGone);
            var sts := ReconcileStatefulSet(moved, agent, plan).w.sts;
            sts.Some? ==> sts.value.replicas == 0
  {
    InUseMounts(pass.w);
    RecordOf(pass.w, target);
    var plan := InUse(pass.w).0.(hold := JobRunning(pass.w));
    assert ReconcileMove(config, pass, podGone) == AdvanceMove(pass, plan, target, podGone);
    if pass.w.claims[target].move.value.phase == Verified {
      SwitchLinks(pass, target);
    }
  }

  lemma SwitchLinks(pass: Pass, target: Name)
    requires Safe(pass.w) && Current(pass.w, target) && pass.w.claims[target].move.value.phase == Verified
    requires pass.w.claims[target].move.value.linkedAt.None?
    ensures var next := SwitchMove(pass, target).0;
            next.running ==> IsMove(next.w.claims, target) && next.w.claims[target].move.value.linkedAt.Some?
  {
    UnlinkedIsFree(pass.w, target);
    NamedOrFree(pass.w, target);
    var linked := LinkMove(pass, Record(pass.w, target).source, target, true);
    if linked.running {
      SettleNames(linked, StatePlan(Some(target), true, false), target);
    }
  }

  // ---- Where it fails ----

  lemma StalledIs()
    ensures var w := Stalled();
            && IsMove(w.claims, FIRST) && OWN in w.claims && w.claims[OWN].movedTo.None? && w.claims[FIRST].movedTo.None?
            && w.claims[FIRST].move.value.id == "1" && w.claims[FIRST].move.value.phase == Verified
            && w.claims[FIRST].move.value.source == OWN && w.claims[FIRST].move.value.linkedAt.None?
            && SourceUnchanged(w, w.claims[FIRST].move.value)
            && w.name == "a" && w.pod.None? && w.sts == Some(STS) && w.agent.Some? && w.agent.value.move == Some("1")
            && w.agent.value.fenced && !w.agent.value.deleting
  {
    ClaimNames();
  }

  /** A run, with no step against any rule, in which the next pass stops right after it links the move: the
      agent's memory is on the copy, and a Pod is made on the source, whose writes the move never reads. */
  lemma StalledAbandons() returns (w: World, w': World)
    ensures Reachable(Stalled()) && ManagerStep(Stalled(), w) && LinksRunning(Stalled(), w) && !RunsOnUse(w)
    ensures PodCreatedStep(w, w') && Reachable(w')
    ensures w'.pod.value.claim == OWN && OWN in w'.claims && w'.claims[OWN].movedTo == Some(FIRST)
    ensures InUse(w') == (StatePlan(Some(FIRST), true, false), FIRST)
  {
    StalledIsReached();
    StalledIs();
    StalledLinks();
    w := WithLink(Stalled(), OWN, FIRST, true);
    Passes(Stalled(), 1, w);
    w' := LinkedAbandons(Stalled());
    Extend(w, w');
  }

  lemma LinkedAbandons(s: World) returns (w': World)
    requires s.name == "a" && s.pod.None? && s.sts == Some(STS) && IsMove(s.claims, FIRST) && OWN in s.claims
    requires s.claims[FIRST].move.value.source == OWN && s.claims[FIRST].move.value.linkedAt.None?
    requires s.claims[OWN].movedTo.None? && s.claims[FIRST].movedTo.None?
    ensures var w := WithLink(s, OWN, FIRST, true);
            LinksRunning(s, w) && !RunsOnUse(w) && PodCreatedStep(w, w')
    ensures w'.pod.value.claim == OWN && OWN in w'.claims && w'.claims[OWN].movedTo == Some(FIRST)
    ensures InUse(w') == (StatePlan(Some(FIRST), true, false), FIRST)
  {
    ClaimNames();
    var w := WithLink(s, OWN, FIRST, true);
    assert LinksRunningAt(s, w, FIRST);
    w' := PodMayStartAbandoned(w);
    assert StateInUse(w', FIRST, 63) == (StatePlan(Some(FIRST), true, false), FIRST);
  }

  lemma StalledLinks()
    ensures IsMove(Stalled().claims, FIRST) && OWN in Stalled().claims
    ensures Reconcile(CONFIG, Pass(Stalled(), 1, true)).w == WithLink(Stalled(), OWN, FIRST, true)
  {
    ClaimNames();
    StalledIs();
    var s := Stalled();
    var pass := Pass(s, 1, true);
    var linked := Pass(WithLink(s, OWN, FIRST, true), 0, true);
    assert LinkMove(pass, OWN, FIRST, true) == linked;
    assert SwitchMove(pass, FIRST).0 == linked.(running := false);
    assert InUse(s) == (OWN_PLAN, OWN);
    assert ReconcileMove(CONFIG, pass, true).0 == linked.(running := false);
    SpentOnMove(s, 1);
  }
}
