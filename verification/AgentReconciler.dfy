/**
  The reconciler as it runs: it reads the objects, writes them one at a time, and returns at the first
  write that fails. Each method leaves the objects, and the writes still allowed, exactly as the
  function that specifies it says (Fence, Move, Workload), so what is proved of those is proved of
  these.
 */
module AgentReconciler {
  import opened Options
  import opened Cluster
  import opened Fence
  import opened Move
  import opened Workload

  class Reconciler {
    const config: Config
    var world: World
    var left: nat                         // the writes allowed before one fails

    constructor (config: Config, world: World, left: nat)
      ensures this.config == config && this.world == world && this.left == left
    {
      this.config, this.world, this.left := config, world, left;
    }

    /** The pass as it stands here, running or returned with an error. */
    ghost function Here(running: bool): Pass
      reads this
    {
      Pass(world, left, running)
    }

    method Write(w: World) returns (ok: bool)
      modifies this
      ensures Here(ok) == Put(old(Here(true)), w)
    {
      ok := left > 0;
      if ok {
        world, left := w, left - 1;
      }
    }

    // ---- The fence ----

    /** The containers that could write the state, collected in two loops. */
    method CollectWriters(p: Pod) returns (writers: seq<Name>)
      ensures writers == Writers(p)
    {
      writers := [];
      var i := |p.initContainers|;
      while i > 0
        invariant 0 <= i <= |p.initContainers|
        invariant writers == RestartingNames(p.initContainers[i..])
      {
        i := i - 1;
        if p.initContainers[i].restartsAlways {
          writers := [p.initContainers[i].name] + writers;
        }
        assert p.initContainers[i..][1..] == p.initContainers[i + 1..];
      }
      assert p.initContainers[0..] == p.initContainers;
      var names := [];
      i := |p.containers|;
      while i > 0
        invariant 0 <= i <= |p.containers|
        invariant names == Names(p.containers[i..])
      {
        i := i - 1;
        names := [p.containers[i].name] + names;
        assert p.containers[i..][1..] == p.containers[i + 1..];
      }
      assert p.containers[0..] == p.containers;
      writers := writers + names;
    }

    /** Reads the writers one by one, up to the first that does not count as stopped. */
    method ReadWriters(p: Pod, node: Node) returns (r: Result<(seq<TerminatedContainer>, seq<Name>), FenceReason>)
      ensures r == TerminatedWriters(p, node, Writers(p))
    {
      var writers := CollectWriters(p);
      var terminated, neverCreated := [], [];
      for i := 0 to |writers|
        invariant TerminatedWriters(p, node, writers[..i]) == Ok((terminated, neverCreated))
      {
        assert writers[..i + 1][..i] == writers[..i];
        match ReadWriter(p, node, writers[i]) {
          case Err(reason) =>
            RefusesAll(p, node, writers, i + 1);
            return Err(reason);
          case Ok(None) => neverCreated := neverCreated + [writers[i]];
          case Ok(Some(c)) => terminated := terminated + [c];
        }
      }
      assert writers[..|writers|] == writers;
      r := Ok((terminated, neverCreated));
    }

    /** The first reason stands, whatever the writers after it show. */
    static lemma {:induction false} RefusesAll(p: Pod, node: Node, names: seq<Name>, i: nat)
      requires i <= |names| && TerminatedWriters(p, node, names[..i]).Err?
      ensures TerminatedWriters(p, node, names) == TerminatedWriters(p, node, names[..i])
      decreases |names|
    {
      if i == |names| {
        assert names[..i] == names;
      } else {
        assert names[..|names| - 1][..i] == names[..i];
        RefusesAll(p, node, names[..|names| - 1], i);
      }
    }

    method ReadFenceOf(p: Pod) returns (r: Result<Evidence, FenceReason>)
      ensures r == ReadFence(world, p)
    {
      if p.node.None? {
        return Ok(Evidence(p.uid, None, [], [], None, world.clock));
      }
      var node := ReadNode(world, p.node.value);
      if node.Err? {
        return Err(node.error);
      }
      var claim := ReadClaim(world, p);
      if claim.Err? {
        return Err(claim.error);
      }
      var writers := ReadWriters(p, node.value);
      if writers.Err? {
        return Err(writers.error);
      }
      var (terminated, neverCreated) := writers.value;
      r := Ok(Evidence(p.uid, Some(claim.value), terminated, neverCreated,
                       if neverCreated == [] then None else Some(p.phase), world.clock));
    }

    method RecordWriter(name: Name, writer: LastWriter) returns (ok: bool)
      requires name in world.claims
      modifies this
      ensures Here(ok) == RecordLastWriter(old(Here(true)), name, writer)
    {
      if world.claims[name].lastWriter == Some(writer) {
        return true;
      }
      ok := Write(WithLastWriter(world, name, writer));
    }

    /** The agent's exit among the evidence: each entry of its name replaces the one before. */
    method AgentExitOf(containers: seq<TerminatedContainer>) returns (exit: Option<int>)
      ensures exit == AgentExit(containers)
    {
      exit := None;
      for i := 0 to |containers|
        invariant exit == AgentExit(containers[..i])
      {
        assert containers[..i + 1][..i] == containers[..i];
        if containers[i].name == AGENT_CONTAINER {
          exit := Some(containers[i].exitCode);
        }
      }
      assert containers[..|containers|] == containers;
    }

    method Release(p: Pod, e: Evidence) returns (ok: bool)
      modifies this
      ensures Here(ok) == ReleaseFence(config, old(Here(true)), p, e)
    {
      ok := Write(WithEvidence(world, e));
      if !ok {
        return;
      }
      if config.adapter {
        ok := Write(WithPlacement(world, Some((p.uid, e))));
        if !ok {
          return;
        }
      }
      if p.claim in world.claims {
        var exit := AgentExitOf(e.containers);
        ok := RecordWriter(p.claim, LastWriter(p.uid, WriterStopped, exit));
        if !ok {
          return;
        }
      }
      ok := Write(WithPod(world, p.(finalizer := false)));
    }

    method RecordPlacementOf(p: Pod) returns (ok: bool)
      modifies this
      ensures Here(ok) == RecordPlacement(old(Here(true)), p)
    {
      if p.pvcRecorded.Some? || p.claim !in world.claims {
        return true;
      }
      var uid := world.claims[p.claim].uid;
      ok := RecordWriter(p.claim, LastWriter(p.uid, WriterRunning, None));
      if ok {
        ok := Write(WithPod(world, p.(pvcRecorded := Some(uid))));
      }
    }

    method TendFence() returns (ok: bool, podGone: bool)
      modifies this
      ensures (Here(ok), podGone) == ReconcileFence(config, old(Here(true)))
    {
      if world.pod.None? {
        return true, true;
      }
      var p := world.pod.value;
      podGone := false;
      if !p.deleting {
        ok := RecordPlacementOf(p);
        return;
      }
      if !p.finalizer {
        return true, false;
      }
      var evidence := ReadFenceOf(p);
      if evidence.Err? {
        return true, false;
      }
      ok := Release(p, evidence.value);
    }

    // ---- The move ----

    /** Follows the chain of moves, at most MAX_MOVES claims of it. */
    method FindStateInUse() returns (plan: StatePlan, name: Name)
      ensures (plan, name) == InUse(world)
    {
      name := OwnClaim(world.name);
      for i := 0 to MAX_MOVES
        invariant InUse(world) == StateInUse(world, name, MAX_MOVES - i)
      {
        if name !in world.claims && name == OwnClaim(world.name) {
          return OWN_PLAN, name;
        }
        if name != OwnClaim(world.name) && !(name in world.claims && Ours(world.claims[name])) {
          return OWN_PLAN.(hold := true), name;
        }
        var next := world.claims[name].movedTo;
        if next.None? {
          return if name == OwnClaim(world.name) then OWN_PLAN else StatePlan(Some(name), true, false), name;
        }
        name := next.value;
      }
      plan := OWN_PLAN.(hold := true);
    }

    /** The Jobs of a list in any order: whether one has not ended. */
    method FindJobRunning() returns (running: bool)
      ensures running == JobRunning(world)
    {
      var keys := world.jobs.Keys;
      while keys != {}
        invariant keys <= world.jobs.Keys
        invariant forall k | k in world.jobs && k !in keys :: world.jobs[k].end.Some?
      {
        var k :| k in keys;
        if world.jobs[k].end.None? {
          return true;
        }
        keys := keys - {k};
      }
      running := false;
    }

    method Begin(plan: StatePlan, id: Name, inUse: Name, podGone: bool) returns (ok: bool, held: StatePlan)
      modifies this
      ensures (Here(ok), held) == BeginMove(config, old(Here(true)), plan, id, inUse, podGone)
    {
      held := plan.(hold := true);
      if !config.copyImage || (world.sts.Some? && !world.sts.value.workspaceTemplate) || !podGone {
        return true, held;
      }
      if inUse !in world.claims || !DrainedCleanly(world.claims[inUse]) {
        return true, held;
      }
      ok := Write(WithTarget(world, id, inUse));
    }

    method EnsureMoveJob(target: Name, step: Step) returns (ok: bool, outcome: Outcome)
      requires target in world.claims && Ours(world.claims[target])
      modifies this
      ensures (Here(ok), outcome) == EnsureJob(old(Here(true)), target, step)
    {
      var record := Record(world, target);
      var key := JobKey(record.id, step);
      outcome := StillRunning;
      if key in world.jobs {
        match world.jobs[key].end {
          case None =>
          case Some(FailedJob) => outcome := Refusal;
          case Some(Exited0(report)) => outcome := Ended(report);
        }
        return true, outcome;
      }
      if (if step == Copy then record.copyStarted else record.checkStarted) {
        return true, Refusal;
      }
      ok := Write(WithMark(world, target, step));
      if ok {
        ok := Write(WithJob(world, target, step));
      }
    }

    method CopyMemory(target: Name) returns (ok: bool)
      requires target in world.claims && Ours(world.claims[target])
      modifies this
      ensures Here(ok) == RunCopy(old(Here(true)), target)
    {
      var outcome;
      ok, outcome := EnsureMoveJob(target, Copy);
      match outcome {
        case StillRunning =>
        case Refusal => ok := Write(WithPhase(world, target, Refused));
        case Ended(report) =>
          if report.source.None? {
            ok := Write(WithPhase(world, target, Refused));
          } else {
            ok := Write(WithRecord(world, target, Record(world, target).(phase := Copied, digest := report.source)));
          }
      }
    }

    method VerifyCopy(target: Name) returns (ok: bool)
      requires target in world.claims && Ours(world.claims[target])
      modifies this
      ensures Here(ok) == RunVerify(old(Here(true)), target)
    {
      var outcome;
      ok, outcome := EnsureMoveJob(target, Verify);
      match outcome {
        case StillRunning =>
        case Refusal => ok := Write(WithPhase(world, target, Refused));
        case Ended(report) =>
          if Verifies(Record(world, target), report) {
            ok := Write(WithPhase(world, target, Verified));
          } else {
            ok := Write(WithPhase(world, target, Refused));
          }
      }
    }

    method NameTarget(source: Name, target: Name, on: bool) returns (ok: bool)
      requires target in world.claims && Ours(world.claims[target])
      modifies this
      ensures Here(ok) == LinkMove(old(Here(true)), source, target, on)
    {
      if source !in world.claims {
        return false;
      }
      if world.claims[source].movedTo == (if on then Some(target) else None) {
        return true;
      }
      ok := Write(WithLink(world, source, target, on));
    }

    method Restore(target: Name) returns (ok: bool, plan: StatePlan)
      requires target in world.claims && Ours(world.claims[target])
      modifies this
      ensures (Here(ok), plan) == RestoreSource(old(Here(true)), target)
    {
      var source := Record(world, target).source;
      plan := StatePlan(Some(source), source != OwnClaim(world.name), true);
      ok := NameTarget(source, target, false);
    }

    method Settle(given: StatePlan, target: Name) returns (ok: bool, plan: StatePlan)
      requires target in world.claims && Ours(world.claims[target])
      modifies this
      ensures (Here(ok), plan) == SettleMove(old(Here(true)), given, target)
    {
      plan := given;
      match Record(world, target).phase {
        case Verified =>
          ok := Write(WithPhase(world, target, Switched));
          if !ok {
            return;
          }
        case Switched =>
        case Accepted => return true, plan;
        case Refused =>
          ok, plan := Restore(target);
          return;
        case _ =>
          ok := Write(WithPhase(world, target, Refused));
          return ok, OWN_PLAN.(hold := true);
      }
      ok, plan := SettleFromPod(given, target);
    }

    method SettleFromPod(given: StatePlan, target: Name) returns (ok: bool, plan: StatePlan)
      requires target in world.claims && Ours(world.claims[target])
      modifies this
      ensures (Here(ok), plan) == SettlePod(old(Here(true)), given, target)
    {
      plan := given;
      if world.pod.None? || world.pod.value.claim != target {
        return true, plan;
      }
      if ExitedNonZero(world.pod.value) {
        ok := Write(WithPhase(world, target, Refused));
        if ok {
          ok, plan := Restore(target);
        }
        return;
      }
      if !PodReady(world.pod.value) {
        return true, plan;
      }
      ok := Write(WithPhase(world, target, Accepted));
    }

    method Switch(target: Name) returns (ok: bool, plan: StatePlan)
      requires target in world.claims && Ours(world.claims[target])
      modifies this
      ensures (Here(ok), plan) == SwitchMove(old(Here(true)), target)
    {
      ok := NameTarget(Record(world, target).source, target, true);
      if !ok {
        return ok, OWN_PLAN.(hold := true);
      }
      ok, plan := Settle(StatePlan(Some(target), true, false), target);
    }

    method Advance(given: StatePlan, target: Name, podGone: bool) returns (ok: bool, plan: StatePlan)
      requires target in world.claims && Ours(world.claims[target])
      modifies this
      ensures (Here(ok), plan) == AdvanceMove(old(Here(true)), given, target, podGone)
    {
      plan := given.(hold := true);
      var record := Record(world, target);
      if record.phase in {Refused, Switched, Accepted} || !podGone {
        return true, plan;
      }
      if !SourceUnchanged(world, record) {
        ok := Write(WithPhase(world, target, Refused));
        return;
      }
      if record.phase == Created {
        ok := CopyMemory(target);
      } else if record.phase == Copied {
        ok := VerifyCopy(target);
      } else {
        ok, plan := Switch(target);
      }
    }

    method TendMove(podGone: bool) returns (ok: bool, plan: StatePlan)
      modifies this
      ensures (Here(ok), plan) == ReconcileMove(config, old(Here(true)), podGone)
    {
      var inUse;
      plan, inUse := FindStateInUse();
      if plan.hold {
        return true, plan;
      }
      var running := FindJobRunning();
      plan := plan.(hold := running);
      if world.agent.None? || world.agent.value.move.None? {
        return true, plan;
      }
      var id := world.agent.value.move.value;
      var target := TargetClaim(world.name, id);
      if target !in world.claims {
        ok, plan := Begin(plan, id, inUse, podGone);
      } else if !Ours(world.claims[target]) || Record(world, target).id != id {
        return true, plan.(hold := true);
      } else if inUse == target {
        ok, plan := Settle(plan, target);
      } else {
        ok, plan := Advance(plan, target, podGone);
      }
    }

    // ---- The workload ----

    method TendStatefulSet(agent: Agent, plan: StatePlan) returns (ok: bool)
      modifies this
      ensures Here(ok) == ReconcileStatefulSet(old(Here(true)), agent, plan)
    {
      if world.sts.Some? && !world.sts.value.workspaceTemplate {
        ok := Write(WithSts(world, None));
        return;
      }
      var mount := MountedClaim(world.sts, plan, OwnClaim(world.name));
      if world.sts.Some? && mount.Some? && world.sts.value.ownsTemplate {
        ok := Write(WithSts(world, None));
        return;
      }
      var rendered := Some(Rendered(world, agent, plan));
      ok := true;
      if world.sts != rendered {
        ok := Write(WithSts(world, rendered));
      }
    }

    method TendWorkload(podGone: bool) returns (ok: bool)
      requires world.agent.Some?
      modifies this
      ensures Here(ok) == ReconcileWorkload(config, old(Here(true)), podGone)
    {
      if !config.buildable {
        return true;
      }
      var agent := world.agent.value;
      if config.adapter && world.secret.None? {
        ok := Write(WithPlacement(world, None));
        if !ok {
          return;
        }
      }
      var plan;
      ok, plan := TendMove(podGone);
      if ok {
        ok := TendStatefulSet(agent, plan);
      }
    }

    method TakeDown() returns (ok: bool)
      requires world.agent.Some?
      modifies this
      ensures Here(ok) == ReconcileDeletion(config, old(Here(true)))
    {
      if !world.agent.value.fenced {
        return true;
      }
      var podGone;
      ok, podGone := TendFence();
      if !ok {
        return;
      }
      if world.sts.Some? {
        ok := Write(WithSts(world, None));
        if !ok {
          return;
        }
      }
      if podGone {
        ok := Write(WithFinalizer(world, false));
      }
    }

    /** One reconcile of the Agent, to its end or to the write that fails. */
    method ReconcileAgent() returns (ok: bool)
      modifies this
      ensures Here(ok) == Reconcile(config, old(Here(true)))
    {
      if world.agent.None? {
        return true;
      }
      if world.agent.value.deleting {
        ok := TakeDown();
        return;
      }
      if !world.agent.value.fenced {
        ok := Write(WithFinalizer(world, true));
        if !ok {
          return;
        }
      }
      var podGone;
      ok, podGone := TendFence();
      if ok {
        ok := TendWorkload(podGone);
      }
    }
  }
}
