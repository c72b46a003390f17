/**
  The writer fence: what a deleting Pod must show before the manager lets it go, and the writes that
  let it go, in order. Functions over a World; the reconciler's methods are proved to do what these
  say (AgentReconciler).

  Every write is one step of a Pass, which allows only so many writes before one fails. A pass with
  n writes allowed is the manager stopped, or refused by the API server, after the n-th: quantifying
  over n quantifies over every crash point.
 */
module Fence {
  import opened Options
  import opened Cluster

  /** A reconcile under way: the objects as they stand, the writes still allowed, and whether the
      pass is still running. */
  datatype Pass = Pass(w: World, left: nat, running: bool)

  function Put(pass: Pass, w: World): Pass {
    if !pass.running || pass.left == 0 then pass.(running := false) else Pass(w, pass.left - 1, true)
  }

  /** What the manager was started with, and what it reads besides the objects of a World. */
  datatype Config = Config(
    copyImage: bool,                      // it names a copy image
    adapter: bool,                        // the Agent's Pod carries garam's adapter
    buildable: bool)                      // it knows the Agent's type, and the Secrets it needs exist

  datatype FenceReason = NodeUnknown | PVCChanged | ContainerRunning | ContainerWaiting | NoContainerStatus

  // ---- Reading a deleting Pod ----

  function ReadNode(w: World, name: Name): Result<Node, FenceReason> {
    if NodeKnown(w.nodes, name) then Ok(w.nodes[name]) else Err(NodeUnknown)
  }

  function ReadClaim(w: World, p: Pod): Result<UID, FenceReason> {
    if p.claim !in w.claims then Err(PVCChanged)
    else if p.pvcRecorded != Some(w.claims[p.claim].uid) then Err(PVCChanged)
    else if w.claims[p.claim].created > p.created then Err(PVCChanged)
    else Ok(w.claims[p.claim].uid)
  }

  predicate WasNeverCreated(s: ContainerStatus) {
    && s.containerID == "" && s.restarts == 0 && s.last == NoState
    && (s.state.NoState? || s.state.Waiting?)
  }

  /** One writer: terminated with a container ID, never created in a Pod the kubelet made terminal,
      or the reason it does not count as stopped. */
  function ReadWriter(p: Pod, node: Node, name: Name): Result<Option<TerminatedContainer>, FenceReason> {
    if name !in p.statuses then Err(NoContainerStatus)
    else
      var s := p.statuses[name];
      if WasNeverCreated(s) then
        if KubeletTerminal(p, node) then Ok(None)
        else if s.state.Waiting? then Err(ContainerWaiting) else Err(NoContainerStatus)
      else
        match s.state
        case Running => Err(ContainerRunning)
        case Waiting => Err(ContainerWaiting)
        case NoState => Err(NoContainerStatus)
        case Terminated(containerID, exitCode) =>
          if containerID == "" then Err(NoContainerStatus)
          else Ok(Some(TerminatedContainer(name, containerID, exitCode)))
  }

  /** The writers seen terminated and those never created, or the reason the first other one gives. */
  function TerminatedWriters(p: Pod, node: Node, names: seq<Name>)
    : (r: Result<(seq<TerminatedContainer>, seq<Name>), FenceReason>)
  {
    if names == [] then Ok(([], []))
    else
      match TerminatedWriters(p, node, names[..|names| - 1])
      case Err(reason) => Err(reason)
      case Ok((terminated, neverCreated)) =>
        match ReadWriter(p, node, names[|names| - 1])
        case Err(reason) => Err(reason)
        case Ok(None) => Ok((terminated, neverCreated + [names[|names| - 1]]))
        case Ok(Some(c)) => Ok((terminated + [c], neverCreated))
  }

  /** The evidence that a deleting Pod's writers stopped, or why there is none. The node is read
      first, then the claim, then the writers. */
  function ReadFence(w: World, p: Pod): Result<Evidence, FenceReason> {
    if p.node.None? then Ok(Evidence(p.uid, None, [], [], None, w.clock))
    else
      match ReadNode(w, p.node.value)
      case Err(reason) => Err(reason)
      case Ok(node) =>
        match ReadClaim(w, p)
        case Err(reason) => Err(reason)
        case Ok(pvcUID) =>
          match TerminatedWriters(p, node, Writers(p))
          case Err(reason) => Err(reason)
          case Ok((terminated, neverCreated)) =>
            Ok(Evidence(p.uid, Some(pvcUID), terminated, neverCreated,
                        if neverCreated == [] then None else Some(p.phase), w.clock))
  }

  /** The agent's own exit among the evidence: the last entry of that name, as the loop reads it. */
  function AgentExit(containers: seq<TerminatedContainer>): Option<int> {
    if containers == [] then None
    else if containers[|containers| - 1].name == AGENT_CONTAINER then Some(containers[|containers| - 1].exitCode)
    else AgentExit(containers[..|containers| - 1])
  }

  // ---- The writes ----

  function WithEvidence(w: World, e: Evidence): World {
    match w.agent
    case None => w
    case Some(agent) => w.(agent := Some(agent.(writerStopped := Some(e))))
  }

  /** A new token, with the placement it replaces beside it in the same write. */
  function WithPlacement(w: World, previous: Option<(UID, Evidence)>): World {
    w.(secret := Some(Placement(w.clock, previous)), clock := w.clock + 1)
  }

  function WithLastWriter(w: World, name: Name, writer: LastWriter): World
    requires name in w.claims
  {
    var claim := w.claims[name];
    w.(claims := w.claims[name := claim.(lastWriter := Some(writer),
         sealed := if writer.state == WriterStopped then claim.content else claim.sealed)])
  }

  function RecordLastWriter(pass: Pass, name: Name, writer: LastWriter): Pass
    requires name in pass.w.claims
  {
    if pass.w.claims[name].lastWriter == Some(writer) then pass
    else Put(pass, WithLastWriter(pass.w, name, writer))
  }

  function RecordStoppedWriter(pass: Pass, p: Pod, e: Evidence): Pass {
    if p.claim !in pass.w.claims then pass
    else RecordLastWriter(pass, p.claim, LastWriter(p.uid, WriterStopped, AgentExit(e.containers)))
  }

  function WithPod(w: World, p: Pod): World {
    w.(pod := Some(p))
  }

  /** The evidence on the Agent, and the next placement's token where an adapter is built. */
  function RecordEvidence(config: Config, pass: Pass, p: Pod, e: Evidence): Pass {
    var recorded := Put(pass, WithEvidence(pass.w, e));
    if config.adapter then Put(recorded, WithPlacement(recorded.w, Some((p.uid, e)))) else recorded
  }

  /** The evidence, the token, the claim's last writer, and only then the Pod's finalizer. A pass that
      stopped writes nothing more. */
  function ReleaseFence(config: Config, pass: Pass, p: Pod, e: Evidence): Pass {
    var named := RecordStoppedWriter(RecordEvidence(config, pass, p, e), p, e);
    Put(named, WithPod(named.w, p.(finalizer := false)))
  }

  /** A running Pod's claim learns of its writer, and only then is the Pod marked with the claim. */
  function RecordPlacement(pass: Pass, p: Pod): Pass {
    if p.pvcRecorded.Some? || p.claim !in pass.w.claims then pass
    else
      var named := RecordLastWriter(pass, p.claim, LastWriter(p.uid, WriterRunning, None));
      Put(named, WithPod(named.w, p.(pvcRecorded := Some(pass.w.claims[p.claim].uid))))
  }

  /** One reading of the fence: the pass after it, and whether the Pod was gone when it was read. */
  function ReconcileFence(config: Config, pass: Pass): (r: (Pass, bool))
    ensures pass.w.agent.Some? ==> r.0.w.agent.Some?
  {
    match pass.w.pod
    case None => (pass, true)
    case Some(p) =>
      if !p.deleting then (RecordPlacement(pass, p), false)
      else if !p.finalizer then (pass, false)
      else
        match ReadFence(pass.w, p)
        case Err(_) => (pass, false)
        case Ok(e) => (ReleaseFence(config, pass, p, e), false)
  }
}
