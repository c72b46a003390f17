/** Every step of the manager keeps the invariants at every crash point, and so does every run. */
module RunSafety {
  import opened Options
  import opened Cluster
  import opened Fence
  import opened Move
  import opened Workload
  import opened Invariants
  import opened EnvironmentSafety
  import opened FenceSafety
  import opened MoveSafety
  import opened Progress

  /** What a step of a move leaves, wherever it stopped: it writes claims and Jobs only. */
  ghost predicate MoveKeeps(w: World, w': World) {
    && Safe(w')
    && w' == w.(claims := w'.claims, jobs := w'.jobs, copiers := w'.copiers, clock := w'.clock)
    && MovesStay(w, w')
  }

  /** Claims stay, and a claim of a move stays one; a name once put on a source is remembered. */
  ghost predicate MovesStay(w: World, w': World) {
    && w.claims.Keys <= w'.claims.Keys
    && forall c | c in w.claims ::
         && (Ours(w'.claims[c]) <==> Ours(w.claims[c]))
         && (Ours(w.claims[c]) && w.claims[c].move.value.linkedAt.Some? ==> w'.claims[c].move.value.linkedAt.Some?)
  }

  /** The claim a plan names may be mounted. */
  ghost predicate PlanMounts(w: World, plan: StatePlan) {
    plan.claim.Some? ==> MayMount(w.claims, plan.claim.value) && OwnClaim(w.name) in w.claims
  }

  lemma StillMounts(w: World, w': World, plan: StatePlan)
    requires PlanMounts(w, plan) && MovesStay(w, w') && w'.name == w.name
    ensures PlanMounts(w', plan)
  {
  }

  lemma RecordOf(w: World, target: Name)
    requires Safe(w) && IsMove(w.claims, target)
    ensures Recorded(w.name, w.claims, target)
    ensures CopyState(w.claims, target, w.jobs, w.copiers)
  {
    Open(w);
  }

  // ---- Single writes ----

  lemma PhaseStep(w: World, target: Name, phase: MovePhase, digest: Option<nat>)
    requires Safe(w) && IsMove(w.claims, target) && PhaseFollows(w, target, phase)
    requires w.claims[target].move.value.unlinks == 0 || phase == Refused
    ensures MoveKeeps(w, WithRecord(w, target, Record(w, target).(phase := phase, digest := digest)))
  {
    Open(w);
    PhaseKeepsInv(w, target, phase, digest);
    Close(WithRecord(w, target, Record(w, target).(phase := phase, digest := digest)));
  }

  lemma RefuseStep(pass: Pass, target: Name)
    requires Safe(pass.w) && IsMove(pass.w.claims, target)
    ensures MoveKeeps(pass.w, Put(pass, WithPhase(pass.w, target, Refused)).w)
  {
    PhaseStep(pass.w, target, Refused, Record(pass.w, target).digest);
  }

  lemma MarkStep(w: World, target: Name, step: Step)
    requires Safe(w) && IsMove(w.claims, target) && w.claims[target].move.value.unlinks == 0
    ensures MoveKeeps(w, WithMark(w, target, step))
  {
    Open(w);
    MarkKeepsInv(w, target, step);
    Close(WithMark(w, target, step));
  }

  lemma JobCreatedStep(w: World, target: Name, step: Step)
    requires Safe(w) && IsMove(w.claims, target)
    requires var r := w.claims[target].move.value;
             && r.linkedAt.None?
             && (if step == Copy then r.copyStarted && r.copyJobs == 0 && r.phase == Created
                 else r.checkStarted && r.checkJobs == 0 && r.phase == Copied)
             && JobKey(r.id, step) !in w.jobs
    ensures MoveKeeps(w, WithJob(w, target, step))
  {
    Open(w);
    JobCreatedKeepsInv(w, target, step);
    Close(WithJob(w, target, step));
  }

  lemma LinkedStep(w: World, target: Name, on: bool)
    requires Safe(w) && MayLink(w, target, on)
    ensures var source := Record(w, target).source;
            var w' := WithLink(w, source, target, on);
            MoveKeeps(w, w') && LinkStep(w, w', target, source, on)
  {
    Open(w);
    LinkKeepsInv(w, target, on);
    Close(WithLink(w, Record(w, target).source, target, on));
  }

  // ---- The steps of a move ----

  lemma EnsureJobKeeps(pass: Pass, target: Name, step: Step)
    requires Safe(pass.w) && IsMove(pass.w.claims, target)
    requires pass.w.claims[target].move.value.phase == (if step == Copy then Created else Copied)
    ensures MoveKeeps(pass.w, EnsureJob(pass, target, step).0.w)
  {
    var r := Record(pass.w, target);
    RecordOf(pass.w, target);
    if JobKey(r.id, step) !in pass.w.jobs && !(if step == Copy then r.copyStarted else r.checkStarted) {
      MarkStep(pass.w, target, step);
      var marked := Put(pass, WithMark(pass.w, target, step));
      if marked.running {
        JobCreatedStep(marked.w, target, step);
      }
    }
  }

  lemma RunCopyKeeps(pass: Pass, target: Name)
    requires Safe(pass.w) && IsMove(pass.w.claims, target) && pass.w.claims[target].move.value.phase == Created
    ensures MoveKeeps(pass.w, RunCopy(pass, target).w)
  {
    var outcome := EnsureJob(pass, target, Copy).1;
    EnsureJobKeeps(pass, target, Copy);
    RefuseStep(pass, target);
    if outcome.Ended? && outcome.report.source.Some? {
      RecordOf(pass.w, target);
      PhaseStep(pass.w, target, Copied, outcome.report.source);
    }
  }

  lemma RunVerifyKeeps(pass: Pass, target: Name)
    requires Safe(pass.w) && IsMove(pass.w.claims, target) && pass.w.claims[target].move.value.phase == Copied
    ensures MoveKeeps(pass.w, RunVerify(pass, target).w)
  {
    var outcome := EnsureJob(pass, target, Verify).1;
    EnsureJobKeeps(pass, target, Verify);
    RefuseStep(pass, target);
    if outcome.Ended? && Verifies(Record(pass.w, target), outcome.report) {
      RecordOf(pass.w, target);
      PhaseStep(pass.w, target, Verified, Record(pass.w, target).digest);
    }
  }

  /** Put back on the source, which is one the memory was on before. */
  lemma RestoreSourceKeeps(pass: Pass, target: Name)
    requires Safe(pass.w) && OnChain(pass.w, target)
    requires pass.w.claims[target].move.value.phase == Refused
    ensures MoveKeeps(pass.w, RestoreSource(pass, target).0.w)
    ensures PlanMounts(RestoreSource(pass, target).0.w, RestoreSource(pass, target).1)
  {
    RecordOf(pass.w, target);
    LinkedStep(pass.w, target, false);
  }

  lemma SettlePodKeeps(pass: Pass, plan: StatePlan, target: Name)
    requires Safe(pass.w) && OnChain(pass.w, target) && pass.w.claims[target].move.value.phase == Switched
    requires PlanMounts(pass.w, plan)
    ensures MoveKeeps(pass.w, SettlePod(pass, plan, target).0.w)
    ensures PlanMounts(SettlePod(pass, plan, target).0.w, SettlePod(pass, plan, target).1)
  {
    RefuseStep(pass, target);
    PhaseStep(pass.w, target, Accepted, Record(pass.w, target).digest);
    RecordOf(pass.w, target);
    var refused := Put(pass, WithPhase(pass.w, target, Refused));
    if refused.running {
      assert OnChain(refused.w, target);
      RestoreSourceKeeps(refused, target);
    }
  }

  lemma SettleMoveKeeps(pass: Pass, plan: StatePlan, target: Name)
    requires Safe(pass.w) && OnChain(pass.w, target)
    requires PlanMounts(pass.w, plan)
    ensures MoveKeeps(pass.w, SettleMove(pass, plan, target).0.w)
    ensures PlanMounts(SettleMove(pass, plan, target).0.w, SettleMove(pass, plan, target).1)
  {
    match Record(pass.w, target).phase {
      case Verified =>
        RecordOf(pass.w, target);
        PhaseStep(pass.w, target, Switched, Record(pass.w, target).digest);
        var switched := Put(pass, WithPhase(pass.w, target, Switched));
        if switched.running {
          assert OnChain(switched.w, target);
          StillMounts(pass.w, switched.w, plan);
          SettlePodKeeps(switched, plan, target);
        }
      case Switched => SettlePodKeeps(pass, plan, target);
      case Accepted =>
      case Refused => RestoreSourceKeeps(pass, target);
      case _ => RefuseStep(pass, target);
    }
  }

  /** A verified move the spec names is either named by its source already, or never was, and then
      nothing is: any other move from that source was undone before this one began. */
  lemma NamedOrFree(w: World, target: Name)
    requires Safe(w) && Current(w, target) && w.claims[target].move.value.phase == Verified
    ensures Record(w, target).source in w.claims
    ensures OnChain(w, target) || MayLink(w, target, true)
  {
    Open(w);
    var r := w.claims[target].move.value;
    assert Recorded(w.name, w.claims, target) && StillNamed(w.claims, r, target);
    NoOtherName(w, target);
  }

  lemma NoOtherName(w: World, target: Name)
    requires Links(w.claims) && NamedLast(w.name, w.agent, w.claims) && Current(w, target)
    requires TargetClaim(w.name, w.claims[target].move.value.id) == target
    requires w.claims[target].move.value.source in w.claims
    ensures var movedTo := w.claims[w.claims[target].move.value.source].movedTo;
            movedTo.None? || movedTo == Some(target)
  {
    var source := w.claims[target].move.value.source;
    var movedTo := w.claims[source].movedTo;
    assert movedTo.Some? ==> Named(w.claims, source);
    assert movedTo.Some? && movedTo.value != target ==>
             UndoneBefore(w.claims[movedTo.value].move.value, w.claims[target].move.value);
  }

  lemma SwitchMoveKeeps(pass: Pass, target: Name)
    requires Safe(pass.w) && Current(pass.w, target) && pass.w.claims[target].move.value.phase == Verified
    ensures MoveKeeps(pass.w, SwitchMove(pass, target).0.w)
    ensures PlanMounts(SwitchMove(pass, target).0.w, SwitchMove(pass, target).1)
  {
    NamedOrFree(pass.w, target);
    RecordOf(pass.w, target);
    if !OnChain(pass.w, target) {
      LinkedStep(pass.w, target, true);
    }
    var linked := LinkMove(pass, Record(pass.w, target).source, target, true);
    if linked.running {
      assert OnChain(linked.w, target);
      SettleMoveKeeps(linked, StatePlan(Some(target), true, false), target);
    }
  }

  lemma AdvanceMoveKeeps(pass: Pass, plan: StatePlan, target: Name, podGone: bool)
    requires Safe(pass.w) && Current(pass.w, target)
    requires PlanMounts(pass.w, plan)
    ensures MoveKeeps(pass.w, AdvanceMove(pass, plan, target, podGone).0.w)
    ensures PlanMounts(AdvanceMove(pass, plan, target, podGone).0.w, AdvanceMove(pass, plan, target, podGone).1)
  {
    var record := Record(pass.w, target);
    if record.phase !in {Refused, Switched, Accepted} {
      RefuseStep(pass, target);
    }
    if record.phase !in {Refused, Switched, Accepted} && podGone && SourceUnchanged(pass.w, record) {
      match record.phase {
        case Created => RunCopyKeeps(pass, target);
        case Copied => RunVerifyKeeps(pass, target);
        case _ => SwitchMoveKeeps(pass, target);
      }
    }
  }

  lemma BeginMoveKeeps(config: Config, pass: Pass, plan: StatePlan, id: Name, inUse: Name, podGone: bool)
    requires Safe(pass.w) && pass.w.agent.Some? && pass.w.agent.value.move == Some(id)
    requires TargetClaim(pass.w.name, id) !in pass.w.claims
    requires podGone ==> pass.w.pod.None?
    requires InUse(pass.w).1 == inUse && !InUse(pass.w).0.hold
    ensures MoveKeeps(pass.w, BeginMove(config, pass, plan, id, inUse, podGone).0.w)
  {
    if podGone && inUse in pass.w.claims && DrainedCleanly(pass.w.claims[inUse]) {
      BeginsFromInUse(pass.w, id, inUse);
      Open(pass.w);
      TargetKeepsInv(pass.w, id, inUse);
      Close(WithTarget(pass.w, id, inUse));
    }
  }

  lemma BeginsFromInUse(w: World, id: Name, inUse: Name)
    requires Safe(w) && w.pod.None? && w.agent.Some? && w.agent.value.move == Some(id)
    requires TargetClaim(w.name, id) !in w.claims
    requires InUse(w).1 == inUse && !InUse(w).0.hold
    requires inUse in w.claims && DrainedCleanly(w.claims[inUse])
    ensures MayBegin(w, id, inUse)
  {
    Open(w);
    InUseFacts(w);
    OwnIsNoMove(w);
  }

  lemma OwnIsNoMove(w: World)
    requires Recordings(w.name, w.claims)
    ensures !IsMove(w.claims, OwnClaim(w.name))
  {
    assert IsMove(w.claims, OwnClaim(w.name)) ==> Recorded(w.name, w.claims, OwnClaim(w.name));
  }

  lemma InUseMounts(w: World)
    requires Safe(w)
    ensures PlanMounts(w, InUse(w).0)
    ensures !InUse(w).0.hold && InUse(w).1 != OwnClaim(w.name) ==> OnChain(w, InUse(w).1)
  {
    Open(w);
    InUseFacts(w);
  }

  lemma ReconcileMoveKeeps(config: Config, pass: Pass, podGone: bool)
    requires Safe(pass.w)
    requires podGone ==> pass.w.pod.None?
    ensures var (next, left) := ReconcileMove(config, pass, podGone);
            MoveKeeps(pass.w, next.w) && PlanMounts(next.w, left)
  {
    InUseMounts(pass.w);
    var (found, _) := InUse(pass.w);
    if !found.hold && pass.w.agent.Some? && pass.w.agent.value.move.Some? {
      NamedMoveKeeps(config, pass, podGone);
    }
  }

  lemma NamedMoveKeeps(config: Config, pass: Pass, podGone: bool)
    requires Safe(pass.w)
    requires podGone ==> pass.w.pod.None?
    requires !InUse(pass.w).0.hold && pass.w.agent.Some? && pass.w.agent.value.move.Some?
    ensures var (next, left) := ReconcileMove(config, pass, podGone);
            MoveKeeps(pass.w, next.w) && PlanMounts(next.w, left)
  {
    InUseMounts(pass.w);
    var (found, inUse) := InUse(pass.w);
    var plan := found.(hold := JobRunning(pass.w));
    var id := pass.w.agent.value.move.value;
    var target := TargetClaim(pass.w.name, id);
    if target !in pass.w.claims {
      BeginMoveKeeps(config, pass, plan, id, inUse, podGone);
      BeginKeepsPlan(config, pass, plan, id, inUse, podGone);
    } else if Ours(pass.w.claims[target]) && Record(pass.w, target).id == id {
      RecordOf(pass.w, target);
      ContinueMoveKeeps(pass, plan, target, inUse, podGone);
    }
  }

  lemma BeginKeepsPlan(config: Config, pass: Pass, plan: StatePlan, id: Name, inUse: Name, podGone: bool)
    requires PlanMounts(pass.w, plan)
    requires MoveKeeps(pass.w, BeginMove(config, pass, plan, id, inUse, podGone).0.w)
    ensures PlanMounts(BeginMove(config, pass, plan, id, inUse, podGone).0.w, BeginMove(config, pass, plan, id, inUse, podGone).1)
  {
    StillMounts(pass.w, BeginMove(config, pass, plan, id, inUse, podGone).0.w, plan);
    assert BeginMove(config, pass, plan, id, inUse, podGone).1 == plan.(hold := true);
  }

  /** A move whose claim exists: the memory is on it already, or it goes one step on. */
  lemma ContinueMoveKeeps(pass: Pass, plan: StatePlan, target: Name, inUse: Name, podGone: bool)
    requires Safe(pass.w) && Current(pass.w, target) && PlanMounts(pass.w, plan)
    requires inUse == target ==> OnChain(pass.w, target)
    ensures var (next, left) := if inUse == target then SettleMove(pass, plan, target) else AdvanceMove(pass, plan, target, podGone);
            MoveKeeps(pass.w, next.w) && PlanMounts(next.w, left)
  {
    if inUse == target {
      SettleMoveKeeps(pass, plan, target);
    } else {
      AdvanceMoveKeeps(pass, plan, target, podGone);
    }
  }

  // ---- The workload ----

  lemma StsKeeps(w: World, sts: Option<StatefulSet>)
    requires Safe(w)
    requires sts.Some? ==> w.agent.Some? && w.agent.value.fenced
    requires sts.Some? && sts.value.mount.Some? ==> MayMount(w.claims, sts.value.mount.value)
    requires sts.Some? && !sts.value.ownsTemplate ==> OwnClaim(w.name) in w.claims
    ensures Safe(WithSts(w, sts))
  {
    Open(w);
    assert Mounted(w.name, sts, w.claims);
    Close(WithSts(w, sts));
  }

  lemma ReconcileStatefulSetKeeps(pass: Pass, agent: Agent, plan: StatePlan)
    requires Safe(pass.w) && pass.w.agent.Some? && pass.w.agent.value.fenced
    requires PlanMounts(pass.w, plan)
    ensures Safe(ReconcileStatefulSet(pass, agent, plan).w)
  {
    StsKeeps(pass.w, None);
    var rendered := Rendered(pass.w, agent, plan);
    OwnMounts(pass.w);
    StsKeeps(pass.w, Some(rendered));
  }

  lemma OwnMounts(w: World)
    requires Safe(w)
    ensures w.sts.Some? && !w.sts.value.ownsTemplate ==> MayMount(w.claims, OwnClaim(w.name))
  {
    Open(w);
    OwnIsNoMove(w);
  }

  lemma PlacementKeeps(w: World, previous: Option<(UID, Evidence)>)
    requires Safe(w)
    ensures Safe(WithPlacement(w, previous))
  {
    Open(w);
    PlacementKeepsInv(w, previous);
    Close(WithPlacement(w, previous));
  }

  lemma ReconcileWorkloadKeeps(config: Config, pass: Pass, podGone: bool)
    requires Safe(pass.w) && pass.w.agent.Some? && pass.w.agent.value.fenced
    requires podGone ==> pass.w.pod.None?
    ensures Safe(ReconcileWorkload(config, pass, podGone).w)
  {
    if config.buildable {
      PlacementKeeps(pass.w, None);
      var ready := if config.adapter && pass.w.secret.None? then Put(pass, WithPlacement(pass.w, None)) else pass;
      if ready.running {
        ReconcileMoveKeeps(config, ready, podGone);
        var (moved, plan) := ReconcileMove(config, ready, podGone);
        ReconcileStatefulSetKeeps(moved, pass.w.agent.value, plan);
      }
    }
  }

  // ---- A pass, and a run ----

  lemma FenceKeeps(config: Config, pass: Pass)
    requires Safe(pass.w)
    ensures Safe(ReconcileFence(config, pass).0.w)
  {
    Open(pass.w);
    ReconcileFenceKeepsInv(config, pass);
    Close(ReconcileFence(config, pass).0.w);
  }

  lemma FenceLeavesAgent(config: Config, pass: Pass)
    ensures var (fenced, podGone) := ReconcileFence(config, pass);
            && (pass.w.agent.Some? ==> fenced.w.agent.Some? && fenced.w.agent.value.fenced == pass.w.agent.value.fenced)
            && (podGone ==> fenced == pass && pass.w.pod.None?)
  {
    if pass.w.pod.Some? {
      var p := pass.w.pod.value;
      if !p.deleting {
        PlacementLeavesAgent(pass, p);
      } else if p.finalizer && ReadFence(pass.w, p).Ok? {
        ReleaseLeavesAgent(config, pass, p, ReadFence(pass.w, p).value);
      }
    }
  }

  lemma PlacementLeavesAgent(pass: Pass, p: Pod)
    ensures RecordPlacement(pass, p).w.agent == pass.w.agent
  {
  }

  lemma ReleaseLeavesAgent(config: Config, pass: Pass, p: Pod, e: Evidence)
    ensures var w' := ReleaseFence(config, pass, p, e).w;
            pass.w.agent.Some? ==> w'.agent.Some? && w'.agent.value.fenced == pass.w.agent.value.fenced
  {
    var minted := RecordEvidence(config, pass, p, e);
    MintedLeavesAgent(config, pass, p, e);
    StoppedWriterWritten(minted, p, e);
    var named := RecordStoppedWriter(minted, p, e);
    assert ReleaseFence(config, pass, p, e).w.agent == named.w.agent;
  }

  lemma MintedLeavesAgent(config: Config, pass: Pass, p: Pod, e: Evidence)
    ensures var w' := RecordEvidence(config, pass, p, e).w;
            pass.w.agent.Some? ==> w'.agent.Some? && w'.agent.value.fenced == pass.w.agent.value.fenced
  {
  }

  lemma FinalizerKeeps(w: World, fenced: bool)
    requires Safe(w) && w.agent.Some?
    requires fenced || (w.pod.None? && w.sts.None?)
    ensures Safe(WithFinalizer(w, fenced))
  {
    Open(w);
    FinalizerKeepsInv(w, WithFinalizer(w, fenced));
    Close(WithFinalizer(w, fenced));
  }

  lemma ReconcileKeeps(config: Config, pass: Pass)
    requires Safe(pass.w)
    ensures Safe(Reconcile(config, pass).w)
  {
    if pass.w.agent.Some? {
      if pass.w.agent.value.deleting {
        ReconcileDeletionKeeps(config, pass);
      } else {
        FinalizerKeeps(pass.w, true);
        var held := if pass.w.agent.value.fenced then pass else Put(pass, WithFinalizer(pass.w, true));
        if held.running {
          FenceKeeps(config, held);
          FenceLeavesAgent(config, held);
          var (fenced, podGone) := ReconcileFence(config, held);
          ReconcileWorkloadKeeps(config, fenced, podGone);
        }
      }
    }
  }

  lemma ReconcileDeletionKeeps(config: Config, pass: Pass)
    requires Safe(pass.w) && pass.w.agent.Some?
    ensures Safe(ReconcileDeletion(config, pass).w)
  {
    FenceKeeps(config, pass);
    FenceLeavesAgent(config, pass);
    var (fenced, podGone) := ReconcileFence(config, pass);
    StsKeeps(fenced.w, None);
    var deleted := if fenced.w.sts.Some? then Put(fenced, WithSts(fenced.w, None)) else fenced;
    if deleted.running && podGone {
      FinalizerKeeps(deleted.w, false);
    }
  }

  lemma NextKeeps(w: World, w': World)
    requires Safe(w) && Next(w, w')
    ensures Safe(w')
  {
    if ManagerStep(w, w') {
      var config: Config, writes: nat :| w' == Reconcile(config, Pass(w, writes, true)).w;
      ReconcileKeeps(config, Pass(w, writes, true));
    } else {
      Open(w);
      EnvironmentKeepsInv(w, w');
      Close(w');
    }
  }

  /** In every run, whatever the manager was stopped at and however the environment steps, the
      invariants hold of every state. */
  lemma {:induction false} RunIsSafe(run: seq<World>, i: nat)
    requires IsRun(run) && i < |run|
    ensures Safe(run[i])
  {
    if i == 0 {
      InitialInv(run[0]);
    } else {
      RunIsSafe(run, i - 1);
      assert StepAt(run, i - 1);
      NextKeeps(run[i - 1], run[i]);
    }
  }
}
