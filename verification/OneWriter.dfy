/** No two Pods ever write an agent's state, in any run. */
module OneWriter {
  import opened Options
  import opened Cluster
  import opened Fence
  import opened Workload
  import opened Invariants
  import opened RunSafety
  import opened RunProgress

  /** The Pod holds the agent's name and carries the fence. */
  ghost predicate Holds(w: World, uid: UID) {
    w.pod.Some? && w.pod.value.uid == uid && w.pod.value.finalizer
  }

  lemma LiveHolds(w: World, uid: UID)
    requires Safe(w)
    ensures LiveOf(w, uid) != {} ==> Holds(w, uid)
  {
    Open(w);
  }

  /** At every point of every run, a running writer belongs to the one Pod that holds the name and
      still carries the fence: two Pods never have one at once, on one claim or on two. */
  lemma NeverTwoWriters(run: seq<World>, i: nat, u: UID, v: UID)
    requires IsRun(run) && i < |run|
    ensures LiveOf(run[i], u) != {} ==> Holds(run[i], u)
    ensures LiveOf(run[i], u) != {} && LiveOf(run[i], v) != {} ==> u == v
  {
    RunIsSafe(run, i);
    LiveHolds(run[i], u);
    LiveHolds(run[i], v);
  }

  lemma HeldOnce(w: World, w': World, uid: UID)
    requires Safe(w) && Next(w, w') && uid in w.live && !Holds(w, uid)
    ensures uid in w'.live && !Holds(w', uid)
  {
    if ManagerStep(w, w') {
      var config: Config, writes: nat :| w' == Reconcile(config, Pass(w, writes, true)).w;
      var ready, podGone := ReconcileParts(config, Pass(w, writes, true));
    } else {
      EnvironmentHeldOnce(w, w', uid);
    }
  }

  lemma EnvironmentHeldOnce(w: World, w': World, uid: UID)
    requires Safe(w) && Environment(w, w') && uid in w.live && !Holds(w, uid)
    ensures uid in w'.live && !Holds(w', uid)
  {
    Open(w);
    if PodCreatedStep(w, w') {
      assert uid < w.clock;
    }
  }

  lemma StepOf(run: seq<World>, j: nat)
    requires IsRun(run) && 0 < j < |run|
    ensures Safe(run[j - 1]) && Next(run[j - 1], run[j])
  {
    RunIsSafe(run, j - 1);
    assert StepAt(run, j - 1);
  }

  /** Created once, and without the fence or without the name now. */
  ghost predicate Released(w: World, uid: UID) {
    uid in w.live && !Holds(w, uid)
  }

  lemma ReleasedStep(run: seq<World>, j: nat, uid: UID)
    requires IsRun(run) && 0 < j < |run| && Released(run[j - 1], uid)
    ensures Released(run[j], uid) && LiveOf(run[j], uid) == {}
  {
    StepOf(run, j);
    HeldOnce(run[j - 1], run[j], uid);
    NextKeeps(run[j - 1], run[j]);
    LiveHolds(run[j], uid);
  }

  /** Once a Pod lost the fence, or its name, nothing of it runs for the rest of the run: the fence
      never comes back, and no later Pod has its UID. */
  lemma {:induction false} ReleasedForEver(run: seq<World>, i: nat, j: nat, uid: UID)
    requires IsRun(run) && i <= j < |run| && Released(run[i], uid)
    ensures Released(run[j], uid) && LiveOf(run[j], uid) == {}
    decreases j
  {
    if i < j {
      ReleasedForEver(run, i, j - 1, uid);
      ReleasedStep(run, j, uid);
    } else {
      RunIsSafe(run, i);
      LiveHolds(run[i], uid);
    }
  }
}
