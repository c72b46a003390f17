/**
  The objects of one agent in the cluster, and everything that changes them besides the manager.

  A World is one state of the API server, together with what is physically true and never read by
  the manager: which containers of which Pod are running (`live`), which of a Pod's writers have
  ended for good (`over`), what a claim holds (`content`), and which copy processes may still be
  writing (`copiers`). The fields marked "history" record the past for the statements made about a
  run; no decision of the manager reads one.
 */
module Cluster {
  import opened Options

  type Name = string
  type UID = nat

  // ---- Pods ----

  datatype ContainerState =
    | NoState
    | Waiting
    | Running
    | Terminated(containerID: string, exitCode: int)

  datatype ContainerStatus = ContainerStatus(
    containerID: string, restarts: nat, last: ContainerState, state: ContainerState, ready: bool)

  datatype ContainerSpec = ContainerSpec(name: Name, restartsAlways: bool)

  datatype Phase = Pending | PodRunning | Succeeded | Failed

  datatype Pod = Pod(
    uid: UID,
    created: nat,
    claim: Name,                          // what its state volume mounts
    initContainers: seq<ContainerSpec>,
    containers: seq<ContainerSpec>,
    node: Option<Name>,
    deleting: bool,
    finalizer: bool,                      // the writer-stopped finalizer
    pvcRecorded: Option<UID>,             // the claim's UID, as annotated on the Pod
    statuses: map<Name, ContainerStatus>,
    phase: Phase,
    disruptions: seq<string>,             // the reason of each DisruptionTarget condition
    readyCondition: bool,
    over: set<Name>)                      // physical: the writers that have ended for good

  const AGENT_CONTAINER := "agent"
  const TERMINATION_BY_KUBELET := "TerminationByKubelet"
  const OUT_OF_SERVICE := "node.kubernetes.io/out-of-service"

  /** The containers that could write the agent's state, in the order the fence reads them. */
  function Writers(p: Pod): seq<Name> {
    RestartingNames(p.initContainers) + Names(p.containers)
  }

  function RestartingNames(cs: seq<ContainerSpec>): seq<Name> {
    if cs == [] then []
    else (if cs[0].restartsAlways then [cs[0].name] else []) + RestartingNames(cs[1..])
  }

  function Names(cs: seq<ContainerSpec>): seq<Name> {
    if cs == [] then [] else [cs[0].name] + Names(cs[1..])
  }

  // ---- Nodes ----

  datatype Readiness = IsReady | NotReady | ReadyUnknown

  datatype Node = Node(ready: Option<Readiness>, taints: set<string>)

  /** The node exists and its last report is not one the cluster calls unknown. */
  predicate NodeKnown(nodes: map<Name, Node>, name: Name) {
    name in nodes && nodes[name].ready.Some? && nodes[name].ready.value != ReadyUnknown
  }

  // ---- Claims and the record a move keeps on them ----

  datatype WriterState = WriterRunning | WriterStopped

  datatype LastWriter = LastWriter(podUID: UID, state: WriterState, exitCode: Option<int>)

  datatype MovePhase = Created | Copied | Verified | Switched | Accepted | Refused

  /** What a volume holds: the stored state, as its digest identifies it, and how many entries
      beside it. Digests are taken not to collide, so equal digests are equal states. */
  datatype Content = Content(state: nat, extra: nat)

  datatype MoveRecord = MoveRecord(
    id: Name,
    phase: MovePhase,
    source: Name,
    sourceUID: UID,
    sourceWriter: Option<LastWriter>,
    digest: Option<nat>,
    copyStarted: bool,
    checkStarted: bool,
    born: nat,                            // history: the clock when the claim was created
    linkedAt: Option<nat>,                // history: the clock when the source first named it
    links: nat,                           // history: how often the source was made to name it
    unlinks: nat,                         // history: how often that name was taken off
    copyJobs: nat,                        // history: the copy Jobs created for it
    checkJobs: nat)                       // history: the verification Jobs created for it

  datatype Claim = Claim(
    uid: UID,
    created: nat,
    labelled: bool,                       // carries the label a move of this Agent gives its claim
    lastWriter: Option<LastWriter>,
    movedTo: Option<Name>,
    move: Option<MoveRecord>,
    content: Content,
    sealed: Content,                      // history: the content when a stopped writer was recorded
    mountedBy: Option<UID>)               // history: the last Pod created on it

  /** The claim is one a move of this Agent created. */
  predicate Ours(claim: Claim) {
    claim.labelled && claim.move.Some?
  }

  // ---- Jobs ----

  datatype Step = Copy | Verify

  datatype JobKey = JobKey(id: Name, step: Step)

  datatype Report = Report(source: Option<nat>, target: Option<nat>, extra: Option<nat>)

  /** What a Job's Pod came to: exit 0 with what it reported, or an end that refuses the move. */
  datatype JobEnd = Exited0(report: Report) | FailedJob

  datatype Job = Job(end: Option<JobEnd>)

  // ---- The workload and the Agent ----

  datatype StatefulSet = StatefulSet(
    replicas: nat,
    ownsTemplate: bool,                   // its claim template makes the state claim
    workspaceTemplate: bool,              // its claim template makes the workspace claim
    mount: Option<Name>,                  // the state claim it mounts by name
    requireStore: bool)

  datatype TerminatedContainer = TerminatedContainer(name: Name, containerID: string, exitCode: int)

  datatype Evidence = Evidence(
    podUID: UID, pvcUID: Option<UID>, containers: seq<TerminatedContainer>,
    neverCreated: seq<Name>, podPhase: Option<Phase>, observedAt: nat)

  /** The placement Secret. The digest of evidence is taken not to collide, so it is the evidence. */
  datatype Placement = Placement(token: nat, previous: Option<(UID, Evidence)>)

  datatype Agent = Agent(
    deleting: bool,
    fenced: bool,                         // the workload-fenced finalizer
    heldStopped: bool,                    // suspended, or stopped by the control service
    move: Option<Name>,                   // spec.memoryMove's id
    writerStopped: Option<Evidence>)      // status.writerStopped

  datatype World = World(
    name: Name,
    agent: Option<Agent>,
    sts: Option<StatefulSet>,
    pod: Option<Pod>,
    claims: map<Name, Claim>,
    jobs: map<JobKey, Job>,
    secret: Option<Placement>,
    nodes: map<Name, Node>,
    live: map<UID, set<Name>>,            // physical: the running writers of every Pod there was
    copiers: set<Name>,                   // physical: the moves whose copy may still be writing
    clock: nat)                           // the source of UIDs, tokens and times

  /** The claim the StatefulSet makes for its one Pod. */
  function OwnClaim(agent: Name): Name {
    "state-" + agent + "-0"
  }

  /** The claim a move moves the agent's memory to. */
  function TargetClaim(agent: Name, id: Name): Name {
    agent + "-state-" + id
  }

  // ---- What the environment is trusted for ----

  predicate IsTerminal(phase: Phase) {
    phase == Succeeded || phase == Failed
  }

  /** A terminal phase the kubelet wrote, as far as the Pod and its node tell: PodGC writes one too,
      for a node that is gone or out of service, or under a DisruptionTarget of its own. */
  predicate KubeletTerminal(p: Pod, node: Node) {
    && IsTerminal(p.phase)
    && node.ready == Some(IsReady)
    && OUT_OF_SERVICE !in node.taints
    && forall i | 0 <= i < |p.disruptions| :: p.disruptions[i] == TERMINATION_BY_KUBELET
  }

  predicate ReportedTerminated(p: Pod, writer: Name) {
    && writer in p.statuses
    && p.statuses[writer].state.Terminated?
    && p.statuses[writer].state.containerID != ""
  }

  /** The assumption the fence rests on: in a deleting Pod on a known node, a writer reported
      terminated with a container ID has ended for good, and under a phase the kubelet made
      terminal every writer has. */
  ghost predicate Truthful(nodes: map<Name, Node>, p: Pod) {
    p.deleting && p.node.Some? && NodeKnown(nodes, p.node.value) ==>
      && (forall x | x in Writers(p) && ReportedTerminated(p, x) :: x in p.over)
      && (KubeletTerminal(p, nodes[p.node.value]) ==> forall x | x in Writers(p) :: x in p.over)
  }

  ghost function LiveOf(w: World, uid: UID): set<Name> {
    if uid in w.live then w.live[uid] else {}
  }

  // ---- The environment's steps ----

  /** Only what a container of the Pod may write: the content of the claim it mounts. */
  ghost predicate OnlyContentOf(w: World, w': World, name: Name) {
    && w'.claims.Keys == w.claims.Keys
    && (forall c | c in w.claims && c != name :: w'.claims[c] == w.claims[c])
    && (name in w.claims ==> w'.claims[name] == w.claims[name].(content := w'.claims[name].content))
  }

  /** The kubelet, the node, its containers and whoever deletes the Pod, by force or not. Containers
      start and stop, statuses lag or lie as far as Truthful allows, and the node comes and goes. A
      Pod deleting before it was given a node is never given one. */
  ghost predicate KubeletStep(w: World, w': World) {
    && w.pod.Some? && w'.pod.Some?
    && var p, p' := w.pod.value, w'.pod.value;
    && w' == w.(pod := w'.pod, nodes := w'.nodes, live := w'.live, claims := w'.claims)
    && p' == p.(node := p'.node, deleting := p'.deleting, statuses := p'.statuses, phase := p'.phase,
                disruptions := p'.disruptions, readyCondition := p'.readyCondition, over := p'.over)
    && (p.deleting ==> p'.deleting)
    && (p.node.Some? ==> p'.node == p.node)
    && (p.node.None? && p'.node.Some? ==> !p.deleting)
    && p.over <= p'.over
    && w'.live.Keys == w.live.Keys
    && (forall u | u in w.live && u != p.uid :: w'.live[u] <= w.live[u])
    && (forall x | x in LiveOf(w', p.uid) :: x in Writers(p) && x !in p'.over)
    && (p'.node.None? ==> LiveOf(w', p.uid) == {})
    && Truthful(w'.nodes, p')
    && (if LiveOf(w, p.uid) == {} then w'.claims == w.claims else OnlyContentOf(w, w', p.claim))
  }

  /** The API server drops a deleting Pod that carries no finalizer, whatever still runs of it. */
  ghost predicate PodGoneStep(w: World, w': World) {
    && w.pod.Some? && w.pod.value.deleting && !w.pod.value.finalizer
    && w' == w.(pod := None)
  }

  function FreshClaim(clock: nat): Claim {
    Claim(clock, clock, false, None, None, None, Content(0, 0), Content(0, 0), None)
  }

  /** The StatefulSet controller creates the one Pod while its name is free, from the template the
      manager wrote, finalizer included, after the claim its own template makes. */
  ghost predicate PodCreatedStep(w: World, w': World) {
    && w.pod.None? && w.sts.Some? && w.sts.value.replicas == 1
    && w'.pod.Some?
    && var p := w'.pod.value;
    && var name := if w.sts.value.mount.Some? then w.sts.value.mount.value else OwnClaim(w.name);
    && var claims := if name in w.claims then w.claims else w.claims[name := FreshClaim(w.clock)];
    && (w.sts.value.mount.Some? ==> name in w.claims)
    && p.uid == p.created == w.clock + 1
    && p.claim == name
    && p.finalizer && !p.deleting && p.node.None? && p.pvcRecorded.None? && p.over == {}
    && p.containers != []
    && w' == w.(pod := Some(p), claims := claims[name := claims[name].(mountedBy := Some(p.uid))],
                live := w.live[p.uid := {}], clock := w.clock + 2)
  }

  /** A Job's Pod: a copy writes its target until it ends, and a verification that exits 0 reports
      what both claims hold then. What a copy reports is left open: nothing below rests on it. */
  ghost predicate JobStep(w: World, w': World, id: Name) {
    var target := TargetClaim(w.name, id);
    && w' == w.(jobs := w'.jobs, copiers := w'.copiers, claims := w'.claims)
    && w'.copiers <= w.copiers
    && (if id in w.copiers then OnlyContentOf(w, w', target) else w'.claims == w.claims)
    && w'.jobs.Keys <= w.jobs.Keys
    && forall k | k in w'.jobs :: w'.jobs[k] != w.jobs[k] ==>
         && k.id == id && w.jobs[k].end.None? && w'.jobs[k].end.Some?
         && (k.step == Copy && w'.jobs[k].end.value.Exited0? ==> id !in w'.copiers)
         && (k.step == Verify && w'.jobs[k].end.value.Exited0? ==> TruthfulReport(w', id, w'.jobs[k].end.value.report))
  }

  ghost predicate TruthfulReport(w: World, id: Name, r: Report) {
    var target := TargetClaim(w.name, id);
    && target in w.claims && w.claims[target].move.Some?
    && w.claims[target].move.value.source in w.claims
    && r == Report(Some(w.claims[w.claims[target].move.value.source].content.state),
                   Some(w.claims[target].content.state), Some(w.claims[target].content.extra))
  }

  /** A move id may be named while its claim does not exist, and named again while no other move has
      switched since its claim was created. */
  ghost predicate MayName(w: World, id: Name) {
    var target := TargetClaim(w.name, id);
    target in w.claims && Ours(w.claims[target]) ==>
      forall c | c in w.claims && c != target && Ours(w.claims[c]) && w.claims[c].move.value.linkedAt.Some? ::
        w.claims[c].move.value.linkedAt.value < w.claims[target].move.value.born
  }

  /** A person, or the control service's feed, changes the spec, deletes the Agent, or makes one. */
  ghost predicate UserStep(w: World, w': World) {
    && w'.agent.Some?
    && w' == w.(agent := w'.agent)
    && (w'.agent.value.move.Some? && (w.agent.None? || w.agent.value.move != w'.agent.value.move) ==>
          MayName(w, w'.agent.value.move.value))
    && if w.agent.Some?
       then
         && w'.agent.value == w.agent.value.(deleting := w'.agent.value.deleting, move := w'.agent.value.move,
                                             heldStopped := w'.agent.value.heldStopped)
         && (w.agent.value.deleting ==> w'.agent.value.deleting)
       else !w'.agent.value.deleting && !w'.agent.value.fenced && w'.agent.value.writerStopped.None?
  }

  /** The API server drops a deleting Agent with no finalizer; what it owns is collected. */
  ghost predicate AgentGoneStep(w: World, w': World) {
    && w.agent.Some? && w.agent.value.deleting && !w.agent.value.fenced
    && w' == w.(agent := None, secret := None)
  }

  /** A claim no move of this Agent made appears under any free name, or the placement Secret is
      deleted by hand. */
  ghost predicate OtherStep(w: World, w': World) {
    || w' == w.(secret := None)
    || exists name, uid, content ::
         && name !in w.claims
         && uid == w.clock
         && w' == w.(claims := w.claims[name := Claim(uid, uid, false, None, None, None, content, content, None)],
                     clock := w.clock + 1)
  }

  ghost predicate Environment(w: World, w': World) {
    || KubeletStep(w, w')
    || PodGoneStep(w, w')
    || PodCreatedStep(w, w')
    || (exists id :: JobStep(w, w', id))
    || UserStep(w, w')
    || AgentGoneStep(w, w')
    || OtherStep(w, w')
  }

  /** Nothing of the Agent exists yet; claims others made may. */
  ghost predicate Initial(w: World) {
    && w.agent.None? && w.sts.None? && w.pod.None? && w.jobs == map[] && w.secret.None?
    && w.copiers == {} && w.live == map[]
    && forall c | c in w.claims ::
         && !Ours(w.claims[c]) && w.claims[c].movedTo.None? && w.claims[c].lastWriter.None?
         && w.claims[c].mountedBy.None? && w.claims[c].uid < w.clock
  }
}
