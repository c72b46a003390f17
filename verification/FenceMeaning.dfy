/** What the fence reads off a Pod, its node and its claim, and what a release records of the agent's exit,
    in the objects' own fields. */
module FenceMeaning {
  import opened Options
  import opened Cluster
  import opened Fence
  import opened Move
  import opened Workload
  import opened Invariants
  import opened FenceSafety
  import opened Progress
  import opened RunSafety
  import opened RunProgress

  // ---- The writers ----

  ghost predicate Restarts(p: Pod, x: Name) {
    exists i | 0 <= i < |p.initContainers| :: p.initContainers[i].restartsAlways && p.initContainers[i].name == x
  }

  ghost predicate Runs(p: Pod, x: Name) {
    exists i | 0 <= i < |p.containers| :: p.containers[i].name == x
  }

  lemma {:induction false} RestartingAre(cs: seq<ContainerSpec>, x: Name)
    ensures x in RestartingNames(cs) <==> exists i | 0 <= i < |cs| :: cs[i].restartsAlways && cs[i].name == x
  {
    if cs != [] {
      RestartingAre(cs[1..], x);
      assert forall i | 1 <= i < |cs| :: cs[1..][i - 1] == cs[i];
    }
  }

  lemma {:induction false} NamesAre(cs: seq<ContainerSpec>, x: Name)
    ensures x in Names(cs) <==> exists i | 0 <= i < |cs| :: cs[i].name == x
  {
    if cs != [] {
      NamesAre(cs[1..], x);
      assert forall i | 1 <= i < |cs| :: cs[1..][i - 1] == cs[i];
    }
  }

  /** The containers that could write are the init containers that restart and every container. */
  lemma WritersAre(p: Pod, x: Name)
    ensures x in Writers(p) <==> Restarts(p, x) || Runs(p, x)
  {
    RestartingAre(p.initContainers, x);
    NamesAre(p.containers, x);
  }

  // ---- Evidence ----

  ghost predicate Ended(p: Pod, x: Name, id: string, code: int) {
    x in p.statuses && p.statuses[x].state == Terminated(id, code) && id != ""
  }

  ghost predicate NeverMade(p: Pod, x: Name) {
    && x in p.statuses
    && var s := p.statuses[x];
    && s.containerID == "" && s.restarts == 0 && s.last == NoState && (s.state == NoState || s.state == Waiting)
  }

  ghost predicate MadeTerminal(p: Pod, node: Node) {
    && (p.phase == Succeeded || p.phase == Failed)
    && node.ready == Some(IsReady) && "node.kubernetes.io/out-of-service" !in node.taints
    && forall i | 0 <= i < |p.disruptions| :: p.disruptions[i] == "TerminationByKubelet"
  }

  ghost predicate StoppedWriter(p: Pod, node: Node, x: Name) {
    (exists id, code :: Ended(p, x, id, code)) || (NeverMade(p, x) && MadeTerminal(p, node))
  }

  lemma ReadWriterSays(p: Pod, node: Node, x: Name)
    ensures ReadWriter(p, node, x).Ok? <==> StoppedWriter(p, node, x)
    ensures forall c: TerminatedContainer :: ReadWriter(p, node, x) == Ok(Some(c)) <==> c.name == x && Ended(p, x, c.containerID, c.exitCode)
    ensures ReadWriter(p, node, x) == Ok(None) <==> NeverMade(p, x) && MadeTerminal(p, node)
    ensures ReadWriter(p, node, x).Err? ==> ReadWriter(p, node, x).error == WhyNot(p, x)
  {
    if x in p.statuses && p.statuses[x].state.Terminated? && p.statuses[x].state.containerID != "" {
      assert Ended(p, x, p.statuses[x].state.containerID, p.statuses[x].state.exitCode);
    }
  }

  function WhyNot(p: Pod, x: Name): FenceReason {
    if x !in p.statuses then NoContainerStatus
    else
      match p.statuses[x].state
      case Running => ContainerRunning
      case Waiting => ContainerWaiting
      case _ => NoContainerStatus
  }

  /** Every entry is of a writer, as its status tells it, and every writer is in one list or the other. */
  ghost predicate ListsWriters(p: Pod, node: Node, names: seq<Name>, ended: seq<TerminatedContainer>, never: seq<Name>) {
    && (forall c | c in ended :: c.name in names && Ended(p, c.name, c.containerID, c.exitCode))
    && (forall x | x in never :: x in names && NeverMade(p, x) && MadeTerminal(p, node))
    && (forall x | x in names :: x in never || exists c | c in ended :: c.name == x)
  }

  lemma {:induction false} TerminatedSay(p: Pod, node: Node, names: seq<Name>)
    ensures TerminatedWriters(p, node, names).Ok? <==> forall x | x in names :: StoppedWriter(p, node, x)
    ensures TerminatedWriters(p, node, names).Ok? ==>
              var (ended, never) := TerminatedWriters(p, node, names).value; ListsWriters(p, node, names, ended, never)
    ensures TerminatedWriters(p, node, names).Err? ==>
              exists i | 0 <= i < |names| ::
                && (forall j | 0 <= j < i :: StoppedWriter(p, node, names[j])) && !StoppedWriter(p, node, names[i])
                && TerminatedWriters(p, node, names).error == WhyNot(p, names[i])
  {
    if names != [] {
      var before, last := names[..|names| - 1], names[|names| - 1];
      assert names == before + [last];
      TerminatedSay(p, node, before);
      ReadWriterSays(p, node, last);
      if TerminatedWriters(p, node, names).Ok? {
        var (ended, never) := TerminatedWriters(p, node, before).value;
        var (all, none) := TerminatedWriters(p, node, names).value;
        assert forall c | c in ended :: c in all;
        forall x | x in names
          ensures x in none || exists c | c in all :: c.name == x
        {
          if x in before && x !in never {
            var c :| c in ended && c.name == x;
            assert c in all;
          } else if x == last && x !in none {
            assert all[|all| - 1].name == x && all[|all| - 1] in all;
          }
        }
      }
    }
  }

  ghost predicate NodeReports(w: World, node: Name) {
    node in w.nodes && (w.nodes[node].ready == Some(IsReady) || w.nodes[node].ready == Some(NotReady))
  }

  ghost predicate ClaimIsThePods(w: World, p: Pod) {
    p.claim in w.claims && p.pvcRecorded == Some(w.claims[p.claim].uid) && w.claims[p.claim].created <= p.created
  }

  /** A Pod that has a node gives evidence exactly when the node's last report is known, the claim is the
      one the Pod was marked with, and every writer ended with a container ID or was never made in a Pod
      the kubelet made terminal; the evidence then lists every writer as its status tells it. */
  lemma EvidenceExactly(w: World, p: Pod)
    requires p.node.Some?
    ensures ReadFence(w, p).Ok? <==>
              && NodeReports(w, p.node.value) && ClaimIsThePods(w, p)
              && forall x | Restarts(p, x) || Runs(p, x) :: StoppedWriter(p, w.nodes[p.node.value], x)
    ensures ReadFence(w, p).Ok? ==>
              var e := ReadFence(w, p).value;
              && e.podUID == p.uid && e.pvcUID == Some(w.claims[p.claim].uid) && e.observedAt == w.clock
              && e.podPhase == (if e.neverCreated == [] then None else Some(p.phase))
              && ListsWriters(p, w.nodes[p.node.value], Writers(p), e.containers, e.neverCreated)
    ensures !NodeReports(w, p.node.value) ==> ReadFence(w, p) == Err(NodeUnknown)
    ensures NodeReports(w, p.node.value) && !ClaimIsThePods(w, p) ==> ReadFence(w, p) == Err(PVCChanged)
  {
    if NodeReports(w, p.node.value) {
      TerminatedSay(p, w.nodes[p.node.value], Writers(p));
      forall x
        ensures x in Writers(p) <==> Restarts(p, x) || Runs(p, x)
      {
        WritersAre(p, x);
      }
    }
  }

  /** One that never had a node has nothing to show, and gives evidence of that. */
  lemma EvidenceWithoutNode(w: World, p: Pod)
    requires p.node.None?
    ensures ReadFence(w, p) == Ok(Evidence(p.uid, None, [], [], None, w.clock))
  {
  }

  // ---- The agent's exit ----

  /** The exit code of the last entry of the agent's container, if there is one. */
  ghost predicate LastExit(cs: seq<TerminatedContainer>, exit: Option<int>) {
    match exit
    case None => forall i | 0 <= i < |cs| :: cs[i].name != "agent"
    case Some(x) => exists i | 0 <= i < |cs| ::
      cs[i].name == "agent" && cs[i].exitCode == x && forall j | i < j < |cs| :: cs[j].name != "agent"
  }

  lemma {:induction false} AgentExitIsLast(cs: seq<TerminatedContainer>)
    ensures LastExit(cs, AgentExit(cs))
    ensures forall exit :: LastExit(cs, exit) ==> exit == AgentExit(cs)
  {
    if cs != [] {
      var before, last := cs[..|cs| - 1], cs[|cs| - 1];
      AgentExitIsLast(before);
      assert forall i | 0 <= i < |before| :: before[i] == cs[i];
      if last.name != "agent" {
        forall exit
          ensures LastExit(cs, exit) <==> LastExit(before, exit)
        {
          if exit.Some? && LastExit(before, exit) {
            var i :| 0 <= i < |before| && before[i].name == "agent" && before[i].exitCode == exit.value
                     && forall j | i < j < |before| :: before[j].name != "agent";
            assert cs[i].name == "agent" && forall j | i < j < |cs| :: cs[j].name != "agent";
          }
        }
      } else {
        assert cs[|cs| - 1].name == "agent";
      }
    }
  }

  /** The agent's container ended with the code, as its status tells it, on a node. */
  ghost predicate AgentEnded(p: Pod, code: int) {
    p.node.Some? && (Restarts(p, "agent") || Runs(p, "agent")) && exists id :: Ended(p, "agent", id, code)
  }

  lemma ExitOfEvidence(w: World, p: Pod)
    requires ReadFence(w, p).Ok?
    ensures forall code :: AgentExit(ReadFence(w, p).value.containers) == Some(code) <==> AgentEnded(p, code)
  {
    var cs := ReadFence(w, p).value.containers;
    AgentExitIsLast(cs);
    if p.node.None? {
      EvidenceWithoutNode(w, p);
    } else {
      EvidenceExactly(w, p);
      WritersAre(p, "agent");
      if "agent" in Writers(p) && exists c | c in cs :: c.name == "agent" {
        var c :| c in cs && c.name == "agent";
        assert Ended(p, "agent", c.containerID, c.exitCode);
        assert forall i | 0 <= i < |cs| && cs[i].name == "agent" :: cs[i] in cs && Ended(p, "agent", cs[i].containerID, cs[i].exitCode);
      } else {
        assert forall i | 0 <= i < |cs| :: cs[i] in cs;
      }
    }
  }

  /** What a claim says once its Pod's fence is off: stopped, with the agent's own exit, and drained cleanly
      exactly where the agent ended with code 0. */
  ghost predicate RecordsExit(p: Pod, claim: Claim) {
    && claim.lastWriter.Some?
    && claim.lastWriter.value.podUID == p.uid && claim.lastWriter.value.state == WriterStopped
    && (forall code :: claim.lastWriter.value.exitCode == Some(code) <==> AgentEnded(p, code))
    && (DrainedCleanly(claim) <==> AgentEnded(p, 0))
  }

  lemma ReleaseRecordsExit(config: Config, pass: Pass, p: Pod)
    requires pass.w.agent.Some? && pass.w.pod == Some(p) && p.finalizer
    ensures var after := ReconcileFence(config, pass).0.w;
            after.pod.Some? && !after.pod.value.finalizer && p.claim in after.claims ==> RecordsExit(p, after.claims[p.claim])
  {
    FinalizerComesOffOnEvidence(config, pass, p);
    if ReadFence(pass.w, p).Ok? {
      ExitOfEvidence(pass.w, p);
    }
  }

  /** A move's part of a pass leaves every claim's last writer. */
  lemma MoveLeavesWriters(config: Config, pass: Pass, podGone: bool)
    requires Safe(pass.w)
    ensures var w' := ReconcileMove(config, pass, podGone).0.w;
            forall c | c in pass.w.claims :: c in w'.claims && w'.claims[c].lastWriter == pass.w.claims[c].lastWriter
  {
    if exists target :: WorksOn(pass.w, target) {
      var target :| WorksOn(pass.w, target);
      ContinuesMove(config, pass, podGone, target);
      OpenMoved(pass, ReconcileMove(config, pass, podGone).0, target);
    } else {
      BeginsMove(config, pass, podGone);
    }
  }

  lemma WorkloadLeavesWriters(config: Config, pass: Pass, podGone: bool)
    requires Safe(pass.w) && pass.w.agent.Some? && (podGone ==> pass.w.pod.None?)
    ensures var w' := ReconcileWorkload(config, pass, podGone).w;
            forall c | c in pass.w.claims :: c in w'.claims && w'.claims[c].lastWriter == pass.w.claims[c].lastWriter
  {
    var ready := WorkloadParts(config, pass, podGone);
    MoveLeavesWriters(config, ready, podGone);
  }

  lemma PassRecordsExit(config: Config, pass: Pass, p: Pod)
    requires Safe(pass.w) && pass.w.agent.Some? && pass.w.pod == Some(p) && p.finalizer
    ensures var after := Reconcile(config, pass).w;
            after.pod.Some? && !after.pod.value.finalizer ==> p.claim in after.claims && RecordsExit(p, after.claims[p.claim])
  {
    Open(pass.w);
    if pass.w.agent.value.deleting {
      ReleaseRecordsExit(config, pass, p);
      FenceSame(config, pass);
      DeletionClaims(config, pass);
    } else {
      var held := if pass.w.agent.value.fenced then pass else Put(pass, WithFinalizer(pass.w, true));
      FinalizerKeeps(pass.w, true);
      if held.running {
        ReleaseRecordsExit(config, held, p);
        FenceSame(config, held);
        FenceKeeps(config, held);
        FenceLeavesAgent(config, held);
        var (fenced, podGone) := ReconcileFence(config, held);
        if fenced.running {
          WorkloadLeavesWriters(config, fenced, podGone);
          var ready := WorkloadParts(config, fenced, podGone);
        }
      }
    }
  }

  /** In every run, the step that takes a Pod's fence off records on its claim the exit its agent's own
      status tells, and none where it tells none: the claim counts as drained cleanly exactly where the
      agent ended with code 0. */
  lemma RunRecordsExit(run: seq<World>, i: nat)
    requires IsRun(run) && i + 1 < |run| && run[i].pod.Some? && run[i].pod.value.finalizer
    requires run[i + 1].pod.Some? && !run[i + 1].pod.value.finalizer
    ensures var p := run[i].pod.value;
            p.deleting && p.claim in run[i + 1].claims && RecordsExit(p, run[i + 1].claims[p.claim])
  {
    RunIsSafe(run, i);
    Open(run[i]);
    assert StepAt(run, i);
    StepRecordsExit(run[i], run[i + 1]);
  }

  lemma StepRecordsExit(w: World, w': World)
    requires Safe(w) && Next(w, w') && w.pod.Some? && w.pod.value.finalizer && w'.pod.Some? && !w'.pod.value.finalizer
    requires w.agent.Some?
    ensures var p := w.pod.value; p.deleting && p.claim in w'.claims && RecordsExit(p, w'.claims[p.claim])
  {
    if Environment(w, w') {
      EnvironmentKeepsFence(w, w');
      assert false;
    } else {
      var config: Config, writes: nat :| w' == Reconcile(config, Pass(w, writes, true)).w;
      PassRecordsExit(config, Pass(w, writes, true), w.pod.value);
      PassReleasesDeleting(config, Pass(w, writes, true), w.pod.value);
    }
  }

  lemma EnvironmentKeepsFence(w: World, w': World)
    requires Environment(w, w') && w.pod.Some? && w.pod.value.finalizer && w'.pod.Some?
    ensures w'.pod.value.finalizer
  {
    if exists id :: JobStep(w, w', id) {
      var id :| JobStep(w, w', id);
    }
  }

  lemma PassReleasesDeleting(config: Config, pass: Pass, p: Pod)
    requires Safe(pass.w) && pass.w.agent.Some? && pass.w.pod == Some(p) && p.finalizer
    ensures var after := Reconcile(config, pass).w;
            after.pod.Some? && !after.pod.value.finalizer ==> p.deleting
  {
    if pass.w.agent.value.deleting {
      FinalizerComesOffOnEvidence(config, pass, p);
      DeletionClaims(config, pass);
    } else {
      var held := if pass.w.agent.value.fenced then pass else Put(pass, WithFinalizer(pass.w, true));
      FinalizerKeeps(pass.w, true);
      FinalizerComesOffOnEvidence(config, held, p);
      if held.running {
        FenceKeeps(config, held);
        FenceLeavesAgent(config, held);
        var (fenced, podGone) := ReconcileFence(config, held);
        if fenced.running {
          var ready := WorkloadParts(config, fenced, podGone);
        }
      }
    }
  }

  // ---- A running Pod ----

  /** A Pod not deleting, and not marked yet, is marked with its claim, which learns that the Pod writes it;
      one marked, or whose claim is not there yet, is left alone. */
  lemma MarksRunningPod(config: Config, pass: Pass, p: Pod)
    requires pass.running && pass.left >= 2 && pass.w.pod == Some(p) && !p.deleting
    ensures var (after, podGone) := ReconcileFence(config, pass);
            && !podGone && after.running
            && if p.pvcRecorded.Some? || p.claim !in pass.w.claims then after == pass
               else
                 && after.w.pod == Some(p.(pvcRecorded := Some(pass.w.claims[p.claim].uid)))
                 && p.claim in after.w.claims && after.w.claims[p.claim].lastWriter == Some(LastWriter(p.uid, WriterRunning, None))
  {
  }
}
