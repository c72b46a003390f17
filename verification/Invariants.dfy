/**
  What holds of the cluster in every state of every run, in groups that each speak of few of its
  objects, and what each group says of the fence, the claims and the moves.
 */
module Invariants {
  import opened Options
  import opened Cluster
  import opened Fence
  import opened Move
  import opened Workload

  /** Only the Pod that holds the name, and still carries the fence, may have a running writer. A Pod
      without the fence was never given a node, or has no writer left that could run. */
  ghost predicate Fenced(agent: Option<Agent>, sts: Option<StatefulSet>, pod: Option<Pod>, nodes: map<Name, Node>,
                         live: map<UID, set<Name>>)
  {
    && (forall u | u in live && live[u] != {} :: pod.Some? && pod.value.uid == u && pod.value.finalizer)
    && (pod.Some? || sts.Some? ==> agent.Some? && agent.value.fenced)
    && (pod.Some? ==>
          var p := pod.value;
          && p.uid in live
          && (forall x | x in live[p.uid] :: x in Writers(p) && x !in p.over)
          && (p.node.None? ==> live[p.uid] == {})
          && (!p.finalizer ==> Quiet(p))
          && Truthful(nodes, p))
  }

  /** Every UID, token and time was taken from the clock. */
  ghost predicate Clocked(w: World) {
    && (forall u | u in w.live :: u < w.clock)
    && (w.pod.Some? ==> w.pod.value.uid < w.clock)
    && (forall c | c in w.claims :: ClaimClocked(w.claims[c], w.clock))
  }

  ghost predicate ClaimClocked(claim: Claim, clock: nat) {
    && claim.uid < clock
    && (claim.mountedBy.Some? ==> claim.mountedBy.value < clock)
    && (claim.move.Some? && claim.labelled ==>
          && claim.move.value.born < clock
          && (claim.move.value.linkedAt.Some? ==> claim.move.value.born < claim.move.value.linkedAt.value < clock))
  }

  /** A claim whose last Pod is gone names that Pod as stopped, and holds what it held when the fence
      recorded it so. */
  ghost predicate Sealed(pod: Option<Pod>, claims: map<Name, Claim>) {
    && (forall c | c in claims :: SealedClaim(pod, claims[c]))
    && (pod.Some? ==>
          && pod.value.claim in claims
          && claims[pod.value.claim].mountedBy == Some(pod.value.uid)
          && (forall c | c in claims && claims[c].mountedBy == Some(pod.value.uid) :: c == pod.value.claim)
          && (!pod.value.finalizer ==> NamedStopped(claims[pod.value.claim], pod.value.uid))
          && (NamedStopped(claims[pod.value.claim], pod.value.uid) ==>
                Quiet(pod.value) && claims[pod.value.claim].content == claims[pod.value.claim].sealed))
  }

  /** Nothing of the Pod can run: it is deleting, and was never given a node or has no writer left. */
  ghost predicate Quiet(p: Pod) {
    p.deleting && (p.node.None? || forall x | x in Writers(p) :: x in p.over)
  }

  ghost predicate SealedClaim(pod: Option<Pod>, claim: Claim) {
    && (claim.mountedBy.None? ==> claim.lastWriter.None?)
    && (claim.mountedBy.Some? && !(pod.Some? && pod.value.uid == claim.mountedBy.value) ==>
          StoppedAs(claim, claim.mountedBy.value))
  }

  ghost predicate NamedStopped(claim: Claim, uid: UID) {
    && claim.lastWriter.Some?
    && claim.lastWriter.value.podUID == uid
    && claim.lastWriter.value.state == WriterStopped
  }

  ghost predicate StoppedAs(claim: Claim, uid: UID) {
    NamedStopped(claim, uid) && claim.content == claim.sealed
  }

  ghost predicate IsMove(claims: map<Name, Claim>, target: Name) {
    target in claims && Ours(claims[target])
  }

  /** No Pod was created on the move's source since the move's claim was. */
  ghost predicate Untouched(claims: map<Name, Claim>, record: MoveRecord) {
    && record.source in claims
    && claims[record.source].mountedBy.Some?
    && claims[record.source].mountedBy.value < record.born
  }

  /** A move's record: made of an older claim whose last writer exited 0, which it still names as long
      as no Pod was created on that claim; and each of its one-time steps was taken at most once. */
  ghost predicate Recorded(name: Name, claims: map<Name, Claim>, target: Name)
    requires IsMove(claims, target)
  {
    var r := claims[target].move.value;
    && target == TargetClaim(name, r.id)
    && target != OwnClaim(name) && OwnClaim(name) in claims
    && claims[target].uid == r.born
    && r.source in claims
    && claims[r.source].uid == r.sourceUID < r.born
    && claims[r.source].mountedBy.Some?
    && r.sourceWriter.Some? && r.sourceWriter.value.podUID < r.born
    && r.sourceWriter.value.state == WriterStopped && r.sourceWriter.value.exitCode == Some(0)
    && (Untouched(claims, r) ==> claims[r.source].lastWriter == r.sourceWriter)
    && (claims[target].mountedBy.Some? ==> r.linkedAt.Some?)
    && (Ours(claims[r.source]) ==> claims[r.source].move.value.linkedAt.Some?)
    && r.copyJobs <= (if r.copyStarted then 1 else 0)
    && r.checkJobs <= (if r.checkStarted then 1 else 0)
    && r.links == (if r.linkedAt.Some? then 1 else 0)
    && r.unlinks <= 1
    && (r.unlinks == 1 ==> r.phase == Refused && r.linkedAt.Some?)
    && (r.linkedAt.Some? ==> r.phase in {Verified, Switched, Accepted, Refused})
  }

  ghost predicate Recordings(name: Name, claims: map<Name, Claim>) {
    forall t | IsMove(claims, t) :: Recorded(name, claims, t)
  }

  /** No move's claim was created while the Pod that holds the name existed. */
  ghost predicate NoMoveBesidePod(pod: Option<Pod>, claims: map<Name, Claim>) {
    pod.Some? ==> forall t | IsMove(claims, t) :: claims[t].move.value.born < pod.value.uid
  }

  /** A claim names where the memory moved only to the claim of a move from it, which was not undone;
      and a move that was linked, and not undone, is still named. */
  ghost predicate Links(claims: map<Name, Claim>) {
    && (forall c | c in claims && claims[c].movedTo.Some? :: Named(claims, c))
    && (forall t | IsMove(claims, t) :: StillNamed(claims, claims[t].move.value, t))
    && (forall t, u | IsMove(claims, t) && IsMove(claims, u) && t != u :: UndoneBefore(claims[t].move.value, claims[u].move.value))
  }

  ghost predicate Named(claims: map<Name, Claim>, c: Name)
    requires c in claims && claims[c].movedTo.Some?
  {
    var t := claims[c].movedTo.value;
    && IsMove(claims, t)
    && claims[t].move.value.source == c
    && claims[t].move.value.linkedAt.Some?
    && claims[t].move.value.unlinks == 0
  }

  ghost predicate StillNamed(claims: map<Name, Claim>, r: MoveRecord, t: Name) {
    r.linkedAt.Some? && r.unlinks == 0 ==> r.source in claims && claims[r.source].movedTo == Some(t)
  }

  ghost predicate UndoneBefore(r: MoveRecord, later: MoveRecord) {
    r.source == later.source && r.linkedAt.Some? && r.linkedAt.value < later.born ==> r.unlinks == 1
  }

  /** No other move switched since the claim of the move the spec names was created. */
  ghost predicate NamedLast(name: Name, agent: Option<Agent>, claims: map<Name, Claim>) {
    agent.Some? && agent.value.move.Some? && IsMove(claims, TargetClaim(name, agent.value.move.value)) ==>
      forall c | IsMove(claims, c) && c != TargetClaim(name, agent.value.move.value) && claims[c].move.value.linkedAt.Some? ::
        claims[c].move.value.linkedAt.value < claims[TargetClaim(name, agent.value.move.value)].move.value.born
  }

  /** Every Job and every copy process is one of a move whose claim exists. */
  ghost predicate Copies(name: Name, claims: map<Name, Claim>, jobs: map<JobKey, Job>, copiers: set<Name>) {
    && (forall t | IsMove(claims, t) :: CopyState(claims, t, jobs, copiers))
    && (forall k | k in jobs :: MoveOf(name, claims, k.id))
    && (forall id | id in copiers :: MoveOf(name, claims, id))
  }

  ghost predicate MoveOf(name: Name, claims: map<Name, Claim>, id: Name) {
    IsMove(claims, TargetClaim(name, id)) && claims[TargetClaim(name, id)].move.value.id == id
  }

  /** A move's Jobs were marked before they were made; its copy process is over once its copy ended;
      and on a source no Pod was created on since, what the verification reported still holds, and a
      verified target holds what its source does and nothing else, until it is linked. */
  ghost predicate CopyState(claims: map<Name, Claim>, t: Name, jobs: map<JobKey, Job>, copiers: set<Name>)
    requires IsMove(claims, t)
  {
    var r := claims[t].move.value;
    var copy, check := JobKey(r.id, Copy), JobKey(r.id, Verify);
    && (copy in jobs ==> r.copyStarted && (ExitedClean(jobs[copy]) ==> r.id !in copiers))
    && (check in jobs ==> r.checkStarted && r.phase != Created)
    && (r.id in copiers ==> r.copyStarted && r.phase in {Created, Refused} && r.linkedAt.None?)
    && (r.linkedAt.None? && Untouched(claims, r) ==>
          && (r.phase == Copied && check in jobs && ExitedClean(jobs[check]) ==>
                ReportHolds(claims[r.source].content, claims[t].content, jobs[check].end.value.report))
          && (r.phase == Verified ==> claims[t].content == Content(claims[r.source].content.state, 0)))
  }

  ghost predicate ExitedClean(job: Job) {
    job.end.Some? && job.end.value.Exited0?
  }

  ghost predicate ReportHolds(source: Content, target: Content, report: Report) {
    report == Report(Some(source.state), Some(target.state), Some(target.extra))
  }

  /** The StatefulSet mounts by name only a claim that exists, and a move's only once it was linked. */
  ghost predicate Mounted(name: Name, sts: Option<StatefulSet>, claims: map<Name, Claim>) {
    && (sts.Some? && sts.value.mount.Some? ==> MayMount(claims, sts.value.mount.value))
    && (sts.Some? && !sts.value.ownsTemplate ==> OwnClaim(name) in claims)
  }

  ghost predicate MayMount(claims: map<Name, Claim>, c: Name) {
    c in claims && (Ours(claims[c]) ==> claims[c].move.value.linkedAt.Some?)
  }

  ghost predicate Inv(w: World) {
    && Fenced(w.agent, w.sts, w.pod, w.nodes, w.live)
    && Clocked(w)
    && Sealed(w.pod, w.claims)
    && Recordings(w.name, w.claims)
    && NoMoveBesidePod(w.pod, w.claims)
    && Links(w.claims)
    && NamedLast(w.name, w.agent, w.claims)
    && Copies(w.name, w.claims, w.jobs, w.copiers)
    && Mounted(w.name, w.sts, w.claims)
  }

  /** The invariants as the steps of a run pass them on: behind a quantifier, so that a proof unfolds
      them only where it opens them. */
  ghost predicate Safe(w: World) {
    forall shown: bool :: SafeWhen(shown, w)
  }

  ghost predicate SafeWhen(shown: bool, w: World) {
    shown ==> Inv(w)
  }

  lemma Open(w: World)
    requires Safe(w)
    ensures Inv(w)
  {
    assert SafeWhen(true, w);
  }

  lemma Close(w: World)
    requires Inv(w)
    ensures Safe(w)
  {
  }

  lemma InitialInv(w: World)
    requires Initial(w)
    ensures Safe(w)
  {
    Close(w);
  }
}
