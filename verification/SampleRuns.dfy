/**
  Runs of one agent, step by step from a cluster with nothing of it: its first Pod drains, and moves of
  its memory are begun, copied and verified by passes that stop short of the StatefulSet.
 */
module SampleRuns {
  import opened Options
  import opened Cluster
  import opened Fence
  import opened Move
  import opened Workload
  import Invariants
  import RunSafety

  const OWN := "state-a-0"
  const FIRST := "a-state-1"
  const SECOND := "a-state-2"
  const CONFIG := Config(true, false, true)

  lemma ClaimNames()
    ensures OwnClaim("a") == OWN && TargetClaim("a", "1") == FIRST && TargetClaim("a", "2") == SECOND
    ensures OWN != FIRST && OWN != SECOND && FIRST != SECOND
  {
    assert OWN[0] != FIRST[0] && OWN[0] != SECOND[0] && FIRST[8] != SECOND[8];
  }

  /** A run ends in the state. */
  ghost predicate Reachable(w: World) {
    exists run :: RunTo(run, w)
  }

  ghost predicate RunTo(run: seq<World>, w: World) {
    IsRun(run) && run[|run| - 1] == w
  }

  lemma Extend(w: World, w': World)
    requires Reachable(w) && Next(w, w')
    ensures Reachable(w')
  {
    var run :| RunTo(run, w);
    var longer := run + [w'];
    forall i | 0 <= i < |longer| - 1
      ensures StepAt(longer, i)
    {
      assert i < |run| - 1 ==> StepAt(run, i);
    }
    assert RunTo(longer, w');
  }

  lemma ReachedIsSafe(w: World)
    requires Reachable(w)
    ensures Invariants.Safe(w)
  {
    var run :| RunTo(run, w);
    RunSafety.RunIsSafe(run, |run| - 1);
  }

  lemma Passes(w: World, writes: nat, w': World)
    requires Reachable(w) && Reconcile(CONFIG, Pass(w, writes, true)).w == w'
    ensures Reachable(w')
  {
    Extend(w, w');
  }

  // ---- The Pod ----

  const NODES := map["n" := Node(Some(IsReady), {})]
  const AGENT := ContainerSpec(AGENT_CONTAINER, false)

  function PodOn(claim: Name, uid: UID): Pod {
    Pod(uid, uid, claim, [], [AGENT], None, false, true, None, map[], Pending, [], false, {})
  }

  function WithMarkOf(p: Pod, pvc: UID): Pod {
    p.(pvcRecorded := Some(pvc))
  }

  /** Deleting on its node, its agent's container reported to have exited 0, as it did. */
  function Exited(p: Pod): Pod {
    p.(node := Some("n"), deleting := true, phase := Succeeded, over := {AGENT_CONTAINER},
       statuses := map[AGENT_CONTAINER := ContainerStatus("c", 0, NoState, Terminated("c", 0), false)])
  }

  function Stopped(uid: UID): LastWriter {
    LastWriter(uid, WriterStopped, Some(0))
  }

  lemma WritersAre(p: Pod)
    requires p.initContainers == [] && p.containers == [AGENT]
    ensures Writers(p) == [AGENT_CONTAINER]
  {
    assert Names([AGENT]) == [AGENT_CONTAINER] + Names([]);
  }

  function EvidenceOf(uid: UID, pvc: UID, at: nat): Evidence {
    Evidence(uid, Some(pvc), [TerminatedContainer(AGENT_CONTAINER, "c", 0)], [], None, at)
  }

  /** The fence of such a Pod is read, and three writes let it go. */
  lemma Releases(w: World, p: Pod, pvc: UID)
    requires w.agent.Some? && p.initContainers == [] && p.containers == [AGENT]
    requires w.pod == Some(Exited(WithMarkOf(p, pvc))) && p.finalizer && w.nodes == NODES
    requires p.claim in w.claims && w.claims[p.claim].uid == pvc && w.claims[p.claim].created <= p.created
    requires w.claims[p.claim].lastWriter == Some(LastWriter(p.uid, WriterRunning, None))
    ensures ReconcileFence(CONFIG, Pass(w, 3, true)) == (Pass(Let(w), 0, true), false)
  {
    var q := w.pod.value;
    var node := NODES["n"];
    WritersAre(q);
    var read := ([TerminatedContainer(AGENT_CONTAINER, "c", 0)], []);
    assert [AGENT_CONTAINER][..0] == [] && TerminatedWriters(q, node, []) == Ok(([], []));
    assert ReadWriter(q, node, AGENT_CONTAINER) == Ok(Some(TerminatedContainer(AGENT_CONTAINER, "c", 0)));
    assert [] + [TerminatedContainer(AGENT_CONTAINER, "c", 0)] == read.0;
    assert TerminatedWriters(q, node, [AGENT_CONTAINER]) == Ok(read);
    var e := EvidenceOf(p.uid, pvc, w.clock);
    assert ReadFence(w, q) == Ok(e);
    assert AgentExit(e.containers) == Some(0);
    var recorded := Pass(WithEvidence(w, e), 2, true);
    var named := Pass(WithLastWriter(recorded.w, p.claim, Stopped(p.uid)), 1, true);
    assert RecordStoppedWriter(recorded, q, e) == named;
  }

  function Let(w: World): World
    requires w.agent.Some? && w.pod.Some? && w.pod.value.claim in w.claims && w.pod.value.pvcRecorded.Some?
  {
    var p := w.pod.value;
    var claim := w.claims[p.claim];
    w.(agent := Some(w.agent.value.(writerStopped := Some(EvidenceOf(p.uid, p.pvcRecorded.value, w.clock)))),
       claims := w.claims[p.claim := claim.(lastWriter := Some(Stopped(p.uid)), sealed := claim.content)],
       pod := Some(p.(finalizer := false)))
  }

  // ---- The first Pod ----

  function Created(): World {
    World("a", Some(Agent(false, false, false, None, None)), None, None, map[], map[], None, NODES, map[], {}, 0)
  }

  const STS := StatefulSet(1, true, true, None, false)

  function Built(): World {
    Created().(agent := Some(Agent(false, true, false, None, None)), sts := Some(STS))
  }

  function Placed(): World {
    Built().(pod := Some(PodOn(OWN, 1)), claims := map[OWN := FreshClaim(0).(mountedBy := Some(1))], live := map[1 := {}], clock := 2)
  }

  function Marked(): World {
    var w := Placed();
    w.(claims := map[OWN := w.claims[OWN].(lastWriter := Some(LastWriter(1, WriterRunning, None)))], pod := Some(WithMarkOf(PodOn(OWN, 1), 0)))
  }

  function Drained(): World {
    Marked().(pod := Some(Exited(WithMarkOf(PodOn(OWN, 1), 0))), agent := Some(Agent(false, true, false, Some("1"), None)))
  }

  /** The agent's Pod ran, exited 0 and is gone; the spec names a move; and the StatefulSet, which the pass
      that let the Pod go did not come to, would make another. */
  function Rested(): World {
    Let(Drained()).(pod := None)
  }

  lemma BuiltIsReached()
    ensures Reachable(Built())
  {
    ClaimNames();
    var none := Created().(agent := None);
    assert RunTo([none], none);
    assert UserStep(none, Created());
    Extend(none, Created());
    var held := Pass(Created().(agent := Built().agent), 8, true);
    assert ReconcileMove(CONFIG, held, true) == (held, OWN_PLAN);
    assert Reconcile(CONFIG, Pass(Created(), 9, true)).w == Built();
    Passes(Created(), 9, Built());
  }

  lemma MarkedIsReached()
    ensures Reachable(Marked())
  {
    BuiltIsReached();
    ClaimNames();
    assert PodCreatedStep(Built(), Placed());
    Extend(Built(), Placed());
    var fenced := Pass(Marked(), 0, true);
    var named := WithLastWriter(Placed(), OWN, LastWriter(1, WriterRunning, None));
    assert named.claims == Marked().claims;
    assert RecordPlacement(Pass(Placed(), 2, true), PodOn(OWN, 1)) == fenced;
    assert ReconcileFence(CONFIG, Pass(Placed(), 2, true)) == (fenced, false);
    assert ReconcileMove(CONFIG, fenced, false) == (fenced, OWN_PLAN);
    assert Reconcile(CONFIG, Pass(Placed(), 2, true)).w == Marked();
    Passes(Placed(), 2, Marked());
  }

  lemma DrainedIsReached()
    ensures Reachable(Drained())
  {
    MarkedIsReached();
    var named := Marked().(agent := Drained().agent);
    assert UserStep(Marked(), named);
    Extend(Marked(), named);
    WritersAre(Drained().pod.value);
    assert KubeletStep(named, Drained());
    Extend(named, Drained());
  }

  lemma RestedIsReached()
    ensures Reachable(Rested())
  {
    DrainedIsReached();
    ClaimNames();
    var w := Drained();
    Releases(w, PodOn(OWN, 1), 0);
    var let := Pass(Let(w), 0, true);
    assert InUse(let.w) == (OWN_PLAN, OWN);
    assert ReconcileMove(CONFIG, let, false).0 == let;
    assert Reconcile(CONFIG, Pass(w, 3, true)).w == Let(w);
    Passes(w, 3, Let(w));
    assert PodGoneStep(Let(w), Rested());
    Extend(Let(w), Rested());
  }

  // ---- A move, by passes that stop short ----

  /** The Agent stands, its Pod is gone, its own claim drained cleanly and names no other, and the spec
      names a move whose claim was not made. */
  ghost predicate CanMove(w: World, id: Name) {
    && w.name == "a" && w.pod.None? && w.agent.Some? && w.agent.value.fenced && !w.agent.value.deleting
    && !w.agent.value.heldStopped && w.agent.value.move == Some(id) && w.sts == Some(STS)
    && OWN in w.claims && w.claims[OWN].movedTo.None? && DrainedCleanly(w.claims[OWN])
    && TargetClaim("a", id) != OWN && TargetClaim("a", id) !in w.claims
    && JobKey(id, Copy) !in w.jobs && JobKey(id, Verify) !in w.jobs && id !in w.copiers
  }

  function Begun(w: World, id: Name): MoveRecord
    requires OWN in w.claims
  {
    MoveRecord(id, MovePhase.Created, OWN, w.claims[OWN].uid, w.claims[OWN].lastWriter, None, false, false, w.clock, None, 0, 0, 0, 0)
  }

  function Moving(w: World, r: MoveRecord, content: Content, jobs: map<JobKey, Job>, copiers: set<Name>): World {
    w.(claims := w.claims[TargetClaim("a", r.id) := Claim(w.clock, w.clock, true, None, None, Some(r), content, Content(0, 0), None)],
       jobs := jobs, copiers := copiers, clock := w.clock + 1)
  }

  function Copying(w: World, id: Name): World
    requires OWN in w.claims
  {
    Moving(w, Begun(w, id).(copyStarted := true, copyJobs := 1), Content(0, 0), w.jobs[JobKey(id, Copy) := Job(None)], w.copiers + {id})
  }

  function CopyJobs(w: World, id: Name): map<JobKey, Job>
    requires OWN in w.claims
  {
    w.jobs[JobKey(id, Copy) := Job(Some(Exited0(Report(Some(w.claims[OWN].content.state), None, None))))]
  }

  function CopiedTo(w: World, id: Name): Content
    requires OWN in w.claims
  {
    Content(w.claims[OWN].content.state, 0)
  }

  function CopyEnded(w: World, id: Name): World
    requires OWN in w.claims
  {
    Moving(w, Begun(w, id).(copyStarted := true, copyJobs := 1), CopiedTo(w, id), CopyJobs(w, id), w.copiers)
  }

  function CopyRecorded(w: World, id: Name): MoveRecord
    requires OWN in w.claims
  {
    Begun(w, id).(copyStarted := true, copyJobs := 1, phase := Copied, digest := Some(w.claims[OWN].content.state))
  }

  function IsCopied(w: World, id: Name): World
    requires OWN in w.claims
  {
    Moving(w, CopyRecorded(w, id), CopiedTo(w, id), CopyJobs(w, id), w.copiers)
  }

  function Checking(w: World, id: Name): World
    requires OWN in w.claims
  {
    Moving(w, CopyRecorded(w, id).(checkStarted := true, checkJobs := 1), CopiedTo(w, id),
           CopyJobs(w, id)[JobKey(id, Verify) := Job(None)], w.copiers)
  }

  function AllJobs(w: World, id: Name): map<JobKey, Job>
    requires OWN in w.claims
  {
    var state := w.claims[OWN].content.state;
    CopyJobs(w, id)[JobKey(id, Verify) := Job(Some(Exited0(Report(Some(state), Some(state), Some(0)))))]
  }

  function Checked(w: World, id: Name): World
    requires OWN in w.claims
  {
    Moving(w, CopyRecorded(w, id).(checkStarted := true, checkJobs := 1), CopiedTo(w, id), AllJobs(w, id), w.copiers)
  }

  function IsVerified(w: World, id: Name): World
    requires OWN in w.claims
  {
    Moving(w, CopyRecorded(w, id).(checkStarted := true, checkJobs := 1, phase := Verified), CopiedTo(w, id), AllJobs(w, id), w.copiers)
  }

  /** A pass with its last write spent on the move leaves the StatefulSet as it was. */
  lemma SpentOnMove(w: World, writes: nat)
    requires w.pod.None? && w.agent.Some? && w.agent.value.fenced && !w.agent.value.deleting
    requires ReconcileMove(CONFIG, Pass(w, writes, true), true).0.left == 0
    ensures Reconcile(CONFIG, Pass(w, writes, true)).w == ReconcileMove(CONFIG, Pass(w, writes, true), true).0.w
  {
    var pass := Pass(w, writes, true);
    assert ReconcileFence(CONFIG, pass) == (pass, true);
  }

  /** Where the spec names a move begun from the claim in use, the pass works on it. */
  lemma AdvancesMove(w: World, r: MoveRecord, content: Content, jobs: map<JobKey, Job>, copiers: set<Name>, writes: nat)
    requires CanMove(w, r.id) && r.source == OWN && r.sourceUID == w.claims[OWN].uid && r.sourceWriter == w.claims[OWN].lastWriter
    ensures var pass := Pass(Moving(w, r, content, jobs, copiers), writes, true);
            var target := TargetClaim("a", r.id);
            && IsOurs(pass.w, target) && Record(pass.w, target) == r && SourceUnchanged(pass.w, r)
            && ReconcileMove(CONFIG, pass, true) == AdvanceMove(pass, StatePlan(None, false, JobRunning(pass.w)), target, true)
  {
    ClaimNames();
    var v := Moving(w, r, content, jobs, copiers);
    assert InUse(v) == (OWN_PLAN, OWN);
  }

  predicate IsOurs(w: World, target: Name) {
    target in w.claims && Ours(w.claims[target])
  }

  lemma BeginsMove(w: World, id: Name)
    requires CanMove(w, id)
    ensures Reconcile(CONFIG, Pass(w, 1, true)).w == Moving(w, Begun(w, id), Content(0, 0), w.jobs, w.copiers)
  {
    ClaimNames();
    assert InUse(w) == (OWN_PLAN, OWN);
    SpentOnMove(w, 1);
  }

  lemma StartsCopy(w: World, id: Name)
    requires CanMove(w, id)
    ensures Reconcile(CONFIG, Pass(Moving(w, Begun(w, id), Content(0, 0), w.jobs, w.copiers), 2, true)).w == Copying(w, id)
  {
    var v := Moving(w, Begun(w, id), Content(0, 0), w.jobs, w.copiers);
    AdvancesMove(w, Begun(w, id), Content(0, 0), w.jobs, w.copiers, 2);
    var target := TargetClaim("a", id);
    var marked := Moving(w, Begun(w, id).(copyStarted := true), Content(0, 0), w.jobs, w.copiers);
    assert WithMark(v, target, Copy) == marked;
    assert WithJob(marked, target, Copy) == Copying(w, id);
    SpentOnMove(v, 2);
  }

  lemma EndsCopy(w: World, id: Name)
    requires CanMove(w, id)
    ensures JobStep(Copying(w, id), CopyEnded(w, id), id)
  {
    var target := TargetClaim("a", id);
    assert TargetClaim(Copying(w, id).name, id) == target;
    assert OnlyContentOf(Copying(w, id), CopyEnded(w, id), target);
  }

  lemma RecordsCopy(w: World, id: Name)
    requires CanMove(w, id)
    ensures Reconcile(CONFIG, Pass(CopyEnded(w, id), 1, true)).w == IsCopied(w, id)
  {
    AdvancesMove(w, Begun(w, id).(copyStarted := true, copyJobs := 1), CopiedTo(w, id), CopyJobs(w, id), w.copiers, 1);
    SpentOnMove(CopyEnded(w, id), 1);
  }

  lemma StartsCheck(w: World, id: Name)
    requires CanMove(w, id)
    ensures Reconcile(CONFIG, Pass(IsCopied(w, id), 2, true)).w == Checking(w, id)
  {
    AdvancesMove(w, CopyRecorded(w, id), CopiedTo(w, id), CopyJobs(w, id), w.copiers, 2);
    var target := TargetClaim("a", id);
    var marked := Moving(w, CopyRecorded(w, id).(checkStarted := true), CopiedTo(w, id), CopyJobs(w, id), w.copiers);
    assert WithMark(IsCopied(w, id), target, Verify) == marked;
    assert WithJob(marked, target, Verify) == Checking(w, id);
    SpentOnMove(IsCopied(w, id), 2);
  }

  lemma EndsCheck(w: World, id: Name)
    requires CanMove(w, id)
    ensures JobStep(Checking(w, id), Checked(w, id), id)
  {
    assert TargetClaim(Checking(w, id).name, id) == TargetClaim("a", id);
    assert Checked(w, id).claims == Checking(w, id).claims;
  }

  lemma RecordsCheck(w: World, id: Name)
    requires CanMove(w, id)
    ensures Reconcile(CONFIG, Pass(Checked(w, id), 1, true)).w == IsVerified(w, id)
  {
    AdvancesMove(w, CopyRecorded(w, id).(checkStarted := true, checkJobs := 1), CopiedTo(w, id), AllJobs(w, id), w.copiers, 1);
    SpentOnMove(Checked(w, id), 1);
  }

  /** Seven steps verify a move, and leave all else as it was, the StatefulSet too. */
  lemma VerifiedIsReached(w: World, id: Name)
    requires Reachable(w) && CanMove(w, id)
    ensures Reachable(IsVerified(w, id))
  {
    BeginsMove(w, id);
    Passes(w, 1, Moving(w, Begun(w, id), Content(0, 0), w.jobs, w.copiers));
    StartsCopy(w, id);
    Passes(Moving(w, Begun(w, id), Content(0, 0), w.jobs, w.copiers), 2, Copying(w, id));
    EndsCopy(w, id);
    Extend(Copying(w, id), CopyEnded(w, id));
    RecordsCopy(w, id);
    Passes(CopyEnded(w, id), 1, IsCopied(w, id));
    StartsCheck(w, id);
    Passes(IsCopied(w, id), 2, Checking(w, id));
    EndsCheck(w, id);
    Extend(Checking(w, id), Checked(w, id));
    RecordsCheck(w, id);
    Passes(Checked(w, id), 1, IsVerified(w, id));
  }

  /** A move verified by passes that all stopped before they came to the StatefulSet, which so still runs
      on the source; its Pod is gone. */
  function Stalled(): World {
    IsVerified(Rested(), "1")
  }

  lemma StalledIsReached()
    ensures Reachable(Stalled())
  {
    ClaimNames();
    RestedIsReached();
    VerifiedIsReached(Rested(), "1");
  }

  // ---- A move that switches, and what the agent then writes ----

  function MovedClaim(w: World, id: Name): Claim
    requires OWN in w.claims
  {
    var r := CopyRecorded(w, id).(checkStarted := true, checkJobs := 1, phase := Switched, links := 1, linkedAt := Some(w.clock + 1));
    Claim(w.clock, w.clock, true, None, None, Some(r), CopiedTo(w, id), Content(0, 0), None)
  }

  /** The source names the move's claim, which holds what is given, under a StatefulSet. */
  function Moved(w: World, id: Name, claim: Claim, sts: Option<StatefulSet>): World
    requires OWN in w.claims
  {
    w.(claims := w.claims[OWN := w.claims[OWN].(movedTo := Some(TargetClaim("a", id)))][TargetClaim("a", id) := claim],
       jobs := AllJobs(w, id), sts := sts, clock := w.clock + 2)
  }

  function Mounting(id: Name): StatefulSet {
    StatefulSet(1, false, true, Some(TargetClaim("a", id)), true)
  }

  /** And a Pod made on it. */
  function MovedPod(w: World, id: Name, claim: Claim, pod: Pod, live: set<Name>): World
    requires OWN in w.claims
  {
    Moved(w, id, claim.(mountedBy := Some(w.clock + 3)), Some(Mounting(id))).(
      pod := Some(pod), live := w.live[w.clock + 3 := live], clock := w.clock + 4)
  }

  function NewPod(w: World, id: Name): Pod {
    PodOn(TargetClaim("a", id), w.clock + 3)
  }

  function MarkedClaim(w: World, id: Name): Claim
    requires OWN in w.claims
  {
    MovedClaim(w, id).(lastWriter := Some(LastWriter(w.clock + 3, WriterRunning, None)))
  }

  const WRITTEN := Content(7, 0)

  function WroteAndExited(w: World, id: Name): World
    requires OWN in w.claims
  {
    MovedPod(w, id, MarkedClaim(w, id).(content := WRITTEN), Exited(WithMarkOf(NewPod(w, id), w.clock)), {})
  }

  /** The agent ran on the move's claim, wrote there, exited 0 and is gone. */
  function Wrote(w: World, id: Name): World
    requires OWN in w.claims && w.agent.Some?
  {
    Let(WroteAndExited(w, id)).(pod := None)
  }

  ghost predicate AllEnded(jobs: map<JobKey, Job>) {
    forall k | k in jobs :: jobs[k].end.Some?
  }

  lemma SwitchesMove(w: World, id: Name)
    requires CanMove(w, id)
    ensures Reconcile(CONFIG, Pass(IsVerified(w, id), 3, true)).w == Moved(w, id, MovedClaim(w, id), None)
  {
    ClaimNames();
    var target := TargetClaim("a", id);
    var v := IsVerified(w, id);
    var pass := Pass(v, 3, true);
    AdvancesMove(w, CopyRecorded(w, id).(checkStarted := true, checkJobs := 1, phase := Verified), CopiedTo(w, id), AllJobs(w, id), w.copiers, 3);
    var linked := WithLink(v, OWN, target, true);
    assert LinkMove(pass, OWN, target, true) == Pass(linked, 2, true);
    var switched := Moved(w, id, MovedClaim(w, id), w.sts);
    assert WithPhase(linked, target, Switched).claims == switched.claims;
    assert WithPhase(linked, target, Switched) == switched;
    assert SwitchMove(pass, target) == (Pass(switched, 1, true), StatePlan(Some(target), true, false));
    assert ReconcileFence(CONFIG, pass) == (pass, true);
    assert ReconcileStatefulSet(Pass(switched, 1, true), w.agent.value, StatePlan(Some(target), true, false)).w
           == Moved(w, id, MovedClaim(w, id), None);
  }

  /** With the memory on the move's claim, the pass settles it, and the first Pod on the copy neither serves
      nor failed. */
  lemma SettlesNothing(w: World, id: Name, v: World, left: nat, podGone: bool)
    requires CanMove(w, id) && AllEnded(w.jobs)
    requires v.name == "a" && v.agent == w.agent && v.jobs == AllJobs(w, id)
    requires var target := TargetClaim("a", id);
             && OWN in v.claims && v.claims[OWN].movedTo == Some(target)
             && IsOurs(v, target) && v.claims[target].movedTo.None?
             && Record(v, target).id == id && Record(v, target).phase == Switched
    requires v.pod.Some? ==> !ExitedNonZero(v.pod.value) && !PodReady(v.pod.value)
    ensures var plan := StatePlan(Some(TargetClaim("a", id)), true, false);
            InUse(v) == (plan, TargetClaim("a", id)) && ReconcileMove(CONFIG, Pass(v, left, true), podGone) == (Pass(v, left, true), plan)
  {
    ClaimNames();
    var target := TargetClaim("a", id);
    assert StateInUse(v, target, 63) == (StatePlan(Some(target), true, false), target);
    assert !JobRunning(v);
  }

  lemma BuildsOnMove(w: World, id: Name)
    requires CanMove(w, id) && AllEnded(w.jobs)
    ensures Reconcile(CONFIG, Pass(Moved(w, id, MovedClaim(w, id), None), 1, true)).w == Moved(w, id, MovedClaim(w, id), Some(Mounting(id)))
  {
    var v := Moved(w, id, MovedClaim(w, id), None);
    SettlesNothing(w, id, v, 1, true);
    assert ReconcileFence(CONFIG, Pass(v, 1, true)) == (Pass(v, 1, true), true);
    assert Rendered(v, w.agent.value, StatePlan(Some(TargetClaim("a", id)), true, false)) == Mounting(id);
  }

  lemma PodIsMade(w: World, id: Name)
    requires CanMove(w, id)
    ensures PodCreatedStep(Moved(w, id, MovedClaim(w, id), Some(Mounting(id))), MovedPod(w, id, MovedClaim(w, id), NewPod(w, id), {}))
  {
    var v, v' := Moved(w, id, MovedClaim(w, id), Some(Mounting(id))), MovedPod(w, id, MovedClaim(w, id), NewPod(w, id), {});
    var target := TargetClaim("a", id);
    assert v'.claims == v.claims[target := v.claims[target].(mountedBy := Some(w.clock + 3))];
  }

  lemma MarksPod(w: World, id: Name)
    requires CanMove(w, id) && AllEnded(w.jobs)
    ensures Reconcile(CONFIG, Pass(MovedPod(w, id, MovedClaim(w, id), NewPod(w, id), {}), 2, true)).w
            == MovedPod(w, id, MarkedClaim(w, id), WithMarkOf(NewPod(w, id), w.clock), {})
  {
    ClaimNames();
    var target := TargetClaim("a", id);
    var v := MovedPod(w, id, MovedClaim(w, id), NewPod(w, id), {});
    var marked := MovedPod(w, id, MarkedClaim(w, id), WithMarkOf(NewPod(w, id), w.clock), {});
    var named := WithLastWriter(v, target, LastWriter(w.clock + 3, WriterRunning, None));
    assert named.claims == marked.claims;
    assert RecordPlacement(Pass(v, 2, true), NewPod(w, id)) == Pass(marked, 0, true);
    assert ReconcileFence(CONFIG, Pass(v, 2, true)) == (Pass(marked, 0, true), false);
    SettlesNothing(w, id, marked, 0, false);
  }

  function Serving(w: World, id: Name): World
    requires OWN in w.claims
  {
    MovedPod(w, id, MarkedClaim(w, id), WithMarkOf(NewPod(w, id), w.clock).(node := Some("n")), {AGENT_CONTAINER})
  }

  lemma PodRuns(w: World, id: Name)
    requires CanMove(w, id) && w.nodes == NODES
    ensures KubeletStep(MovedPod(w, id, MarkedClaim(w, id), WithMarkOf(NewPod(w, id), w.clock), {}), Serving(w, id))
  {
    WritersAre(Serving(w, id).pod.value);
  }

  lemma PodWritesAndExits(w: World, id: Name)
    requires CanMove(w, id) && w.nodes == NODES
    ensures KubeletStep(Serving(w, id), WroteAndExited(w, id))
  {
    WritersAre(Serving(w, id).pod.value);
    WritersAre(WroteAndExited(w, id).pod.value);
    assert OnlyContentOf(Serving(w, id), WroteAndExited(w, id), TargetClaim("a", id));
  }

  lemma LetsPodGo(w: World, id: Name)
    requires CanMove(w, id) && AllEnded(w.jobs) && w.nodes == NODES
    ensures Reconcile(CONFIG, Pass(WroteAndExited(w, id), 3, true)).w == Let(WroteAndExited(w, id))
  {
    ClaimNames();
    var v := WroteAndExited(w, id);
    Releases(v, NewPod(w, id), w.clock);
    var let := Let(v);
    SettlesNothingAfter(w, id);
  }

  lemma SettlesNothingAfter(w: World, id: Name)
    requires CanMove(w, id) && AllEnded(w.jobs)
    ensures var let := Let(WroteAndExited(w, id)); ReconcileMove(CONFIG, Pass(let, 0, true), false).0 == Pass(let, 0, true)
  {
    ClaimNames();
    var let := Let(WroteAndExited(w, id));
    var target := TargetClaim("a", id);
    assert StateInUse(let, target, 63) == (StatePlan(Some(target), true, false), target);
    assert InUse(let).1 == target;
  }

  /** From where a move was verified, eight steps switch it and drain an agent that wrote on its claim. */
  lemma WroteIsReached(w: World, id: Name)
    requires CanMove(w, id) && Reachable(IsVerified(w, id)) && AllEnded(w.jobs) && w.nodes == NODES
    ensures Reachable(Wrote(w, id))
  {
    SwitchesMove(w, id);
    Passes(IsVerified(w, id), 3, Moved(w, id, MovedClaim(w, id), None));
    BuildsOnMove(w, id);
    Passes(Moved(w, id, MovedClaim(w, id), None), 1, Moved(w, id, MovedClaim(w, id), Some(Mounting(id))));
    PodIsMade(w, id);
    Extend(Moved(w, id, MovedClaim(w, id), Some(Mounting(id))), MovedPod(w, id, MovedClaim(w, id), NewPod(w, id), {}));
    MarksPod(w, id);
    Passes(MovedPod(w, id, MovedClaim(w, id), NewPod(w, id), {}), 2, MovedPod(w, id, MarkedClaim(w, id), WithMarkOf(NewPod(w, id), w.clock), {}));
    PodRuns(w, id);
    PodWritesAndExits(w, id);
    Extend(MovedPod(w, id, MarkedClaim(w, id), WithMarkOf(NewPod(w, id), w.clock), {}), Serving(w, id));
    Extend(Serving(w, id), WroteAndExited(w, id));
    LetsPodGo(w, id);
    Passes(WroteAndExited(w, id), 3, Let(WroteAndExited(w, id)));
    assert PodGoneStep(Let(WroteAndExited(w, id)), Wrote(w, id));
    Extend(Let(WroteAndExited(w, id)), Wrote(w, id));
  }
}
