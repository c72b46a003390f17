/** What each step of a move decides, in the objects' own fields: when it is begun, what its Jobs' reports
    come to, and what the first Pod on the copy makes of it. */
module MoveMeaning {
  import opened Options
  import opened Cluster
  import opened Fence
  import opened Move
  import opened Workload
  import opened Invariants
  import opened MoveSafety
  import opened Progress
  import opened RunSafety
  import opened RunProgress
  import opened ResumeLater

  ghost predicate AnyJobRuns(w: World) {
    exists k | k in w.jobs :: w.jobs[k].end.None?
  }

  /** The record as the claim of the move the spec names keeps it. */
  ghost function RecordAt(w: World, target: Name): MoveRecord
    requires IsMove(w.claims, target)
  {
    w.claims[target].move.value
  }

  // ---- The first Pod on the copy ----

  ghost predicate PodOnTarget(w: World, target: Name) {
    w.pod.Some? && w.pod.value.claim == target && "agent" in w.pod.value.statuses
  }

  /** Its agent ended with a code other than 0, now or before its last start. */
  ghost predicate AgentFailed(w: World, target: Name) {
    && PodOnTarget(w, target)
    && var s := w.pod.value.statuses["agent"];
    && ((s.state.Terminated? && s.state.exitCode != 0) || (s.last.Terminated? && s.last.exitCode != 0))
  }

  ghost predicate AgentServes(w: World, target: Name) {
    && PodOnTarget(w, target) && !AgentFailed(w, target)
    && w.pod.value.readyCondition && w.pod.value.statuses["agent"].ready
  }

  lemma SettlesPod(pass: Pass, plan: StatePlan, target: Name)
    requires IsMove(pass.w.claims, target) && RecordAt(pass.w, target).phase == Switched && pass.running
    requires pass.left >= 2 || SettlePod(pass, plan, target).0.running
    requires var source := RecordAt(pass.w, target).source;
             source in pass.w.claims && source != target && pass.w.claims[source].movedTo == Some(target)
    ensures var (next, left) := SettlePod(pass, plan, target);
            var r := RecordAt(pass.w, target);
            && next.running && IsMove(next.w.claims, target) && r.source in next.w.claims
            && RecordAt(next.w, target) == (if AgentFailed(pass.w, target) then r.(phase := Refused, unlinks := r.unlinks + 1)
                                            else if AgentServes(pass.w, target) then r.(phase := Accepted) else r)
            && next.w.claims[r.source].movedTo == (if AgentFailed(pass.w, target) then None else Some(target))
            && left == if AgentFailed(pass.w, target) then StatePlan(Some(r.source), r.source != "state-" + pass.w.name + "-0", true) else plan
  {
    if AgentFailed(pass.w, target) {
      var refused := Put(pass, WithPhase(pass.w, target, Refused));
      assert SettlePod(pass, plan, target) == RestoreSource(refused, target);
    }
  }

  /** With the memory on a move's claim that is verified or switched, a pass with three writes, or that needs no more than it has, leaves the
      move refused, and its source named no more, exactly where the first Pod's agent ended with a code
      other than 0; accepted exactly where that Pod serves and its agent has not; and switched otherwise.
      The workload is held only where the move is refused, or a Job still runs. */
  lemma SettleDecides(config: Config, w: World, left: nat, podGone: bool, target: Name)
    requires Safe(w) && OnTarget(w, target) && RecordAt(w, target).phase in {Verified, Switched}
    requires left >= 3 || ReconcileMove(config, Pass(w, left, true), podGone).0.running
    ensures var (next, plan) := ReconcileMove(config, Pass(w, left, true), podGone);
            var r := RecordAt(w, target);
            && next.running && IsMove(next.w.claims, target) && r.source in next.w.claims
            && RecordAt(next.w, target).id == r.id
            && (RecordAt(next.w, target).phase == Refused <==> AgentFailed(w, target))
            && (RecordAt(next.w, target).phase == Accepted <==> AgentServes(w, target))
            && RecordAt(next.w, target).phase in {Switched, Accepted, Refused}
            && (next.w.claims[r.source].movedTo == if AgentFailed(w, target) then None else Some(target))
            && plan == if AgentFailed(w, target) then StatePlan(Some(r.source), r.source != "state-" + w.name + "-0", true)
                       else StatePlan(Some(target), true, AnyJobRuns(w))
  {
    RecordOf(w, target);
    InUseMounts(w);
    var given := InUse(w).0.(hold := JobRunning(w));
    var pass := Pass(w, left, true);
    assert ReconcileMove(config, pass, podGone) == SettleMove(pass, given, target);
    if RecordAt(w, target).phase == Verified {
      var switched := Pass(WithPhase(w, target, Switched), left - 1, true);
      assert SettleMove(pass, given, target) == SettlePod(switched, given, target);
      SettlesPod(switched, given, target);
    } else {
      SettlesPod(pass, given, target);
    }
    UseIsTarget(w, target);
  }

  lemma UseIsTarget(w: World, target: Name)
    requires Safe(w) && OnTarget(w, target)
    ensures InUse(w).0 == StatePlan(Some(target), true, false)
  {
    RecordOf(w, target);
    Open(w);
    InUseFacts(w);
  }

  /** An accepted move is left as it is, a refused one has its source's name taken off. */
  lemma EndsStay(config: Config, w: World, left: nat, podGone: bool, target: Name)
    requires Safe(w) && OnTarget(w, target) && RecordAt(w, target).phase in {Accepted, Refused} && left >= 1
    ensures var (next, plan) := ReconcileMove(config, Pass(w, left, true), podGone);
            var r := RecordAt(w, target);
            if r.phase == Accepted then next == Pass(w, left, true) && plan == StatePlan(Some(target), true, AnyJobRuns(w))
            else
              && next.running && r.source in next.w.claims && next.w.claims[r.source].movedTo.None?
              && plan == StatePlan(Some(r.source), r.source != "state-" + w.name + "-0", true)
  {
    RecordOf(w, target);
    InUseMounts(w);
    UseIsTarget(w, target);
  }

  // ---- The steps before the switch ----

  ghost predicate Advances(w: World, target: Name) {
    WorksOn(w, target) && InUse(w).1 != target
  }

  lemma AdvancesTo(config: Config, w: World, left: nat, podGone: bool, target: Name)
    requires Safe(w) && Advances(w, target)
    ensures ReconcileMove(config, Pass(w, left, true), podGone)
            == AdvanceMove(Pass(w, left, true), InUse(w).0.(hold := JobRunning(w)), target, podGone)
  {
    RecordOf(w, target);
  }

  ghost predicate AsBegun(w: World, r: MoveRecord) {
    r.source in w.claims && w.claims[r.source].uid == r.sourceUID && w.claims[r.source].lastWriter == r.sourceWriter
  }

  /** Nothing happens to a move that ended or switched away, nor while a Pod holds the name; and with the
      Pod gone, a source that is not as the move began refuses it. The workload is held throughout. */
  lemma WaitsOrRefuses(config: Config, w: World, left: nat, podGone: bool, target: Name)
    requires Safe(w) && Advances(w, target) && left >= 1
    requires RecordAt(w, target).phase in {Refused, Switched, Accepted} || !podGone || !AsBegun(w, RecordAt(w, target))
    ensures var (next, plan) := ReconcileMove(config, Pass(w, left, true), podGone);
            var r := RecordAt(w, target);
            && plan.hold && next.running
            && (r.phase in {Refused, Switched, Accepted} || !podGone ==> next.w == w)
            && (r.phase !in {Refused, Switched, Accepted} && podGone ==>
                  IsMove(next.w.claims, target) && RecordAt(next.w, target) == r.(phase := Refused))
  {
    AdvancesTo(config, w, left, podGone, target);
  }

  /** The copy: marked, and its Job made once; waited for; and its report's digest of the source recorded
      with the phase that follows. A Job that failed, is gone, or reported no digest refuses the move. */
  lemma CopyDecides(config: Config, w: World, left: nat, target: Name)
    requires Safe(w) && Advances(w, target) && AsBegun(w, RecordAt(w, target)) && left >= 2
    requires RecordAt(w, target).phase == Created
    ensures var (next, plan) := ReconcileMove(config, Pass(w, left, true), true);
            var r := RecordAt(w, target);
            var key := JobKey(r.id, Copy);
            && plan.hold && next.running && IsMove(next.w.claims, target)
            && if key !in w.jobs && !r.copyStarted then
                 RecordAt(next.w, target) == r.(copyStarted := true, copyJobs := r.copyJobs + 1) && next.w.jobs == w.jobs[key := Job(None)]
               else if key in w.jobs && w.jobs[key].end.None? then next.w == w
               else if key in w.jobs && w.jobs[key].end.value.Exited0? && w.jobs[key].end.value.report.source.Some? then
                 RecordAt(next.w, target) == r.(phase := Copied, digest := w.jobs[key].end.value.report.source) && next.w.jobs == w.jobs
               else RecordAt(next.w, target) == r.(phase := Refused) && next.w.jobs == w.jobs
  {
    AdvancesTo(config, w, left, true, target);
  }

  /** The verification: as the copy, and verified exactly where the source's digest now, its digest when the
      copy began and the copy's are one, and the target holds no other entry. */
  lemma VerifyDecides(config: Config, w: World, left: nat, target: Name)
    requires Safe(w) && Advances(w, target) && AsBegun(w, RecordAt(w, target)) && left >= 2
    requires RecordAt(w, target).phase == Copied
    ensures var (next, plan) := ReconcileMove(config, Pass(w, left, true), true);
            var r := RecordAt(w, target);
            var key := JobKey(r.id, Verify);
            && plan.hold && next.running && IsMove(next.w.claims, target)
            && if key !in w.jobs && !r.checkStarted then
                 RecordAt(next.w, target) == r.(checkStarted := true, checkJobs := r.checkJobs + 1) && next.w.jobs == w.jobs[key := Job(None)]
               else if key in w.jobs && w.jobs[key].end.None? then next.w == w
               else
                 && next.w.jobs == w.jobs
                 && RecordAt(next.w, target) == r.(phase :=
                      if key in w.jobs && w.jobs[key].end.value.Exited0? && r.digest.Some?
                         && w.jobs[key].end.value.report == Report(r.digest, r.digest, Some(0))
                      then Verified else Refused)
  {
    AdvancesTo(config, w, left, true, target);
  }

  /** The switch: the source names the target, and then the phase says so; the workload is let run on the
      target at once. */
  lemma SwitchDecides(config: Config, w: World, left: nat, target: Name)
    requires Safe(w) && Advances(w, target) && AsBegun(w, RecordAt(w, target)) && left >= 2 && w.pod.None?
    requires RecordAt(w, target).phase == Verified
    ensures var (next, plan) := ReconcileMove(config, Pass(w, left, true), true);
            var r := RecordAt(w, target);
            && next.running && IsMove(next.w.claims, target) && r.source in next.w.claims
            && RecordAt(next.w, target).phase == Switched && RecordAt(next.w, target).linkedAt.Some?
            && next.w.claims[r.source].movedTo == Some(target)
            && plan == StatePlan(Some(target), true, false)
  {
    AdvancesTo(config, w, left, true, target);
    RecordOf(w, target);
    NamedOrFree(w, target);
    var linked := LinkMove(Pass(w, left, true), RecordAt(w, target).source, target, true);
    assert linked.running && linked.left >= 1;
  }

  // ---- The beginning ----

  ghost predicate MayBegin(config: Config, w: World, inUse: Name, podGone: bool) {
    && config.copyImage && (w.sts.Some? ==> w.sts.value.workspaceTemplate) && podGone
    && inUse in w.claims && w.claims[inUse].lastWriter.Some?
    && w.claims[inUse].lastWriter.value.state == WriterStopped && w.claims[inUse].lastWriter.value.exitCode == Some(0)
  }

  /** A move is begun exactly where the manager names a copy image, the StatefulSet is in today's shape, no
      Pod is left, and the claim in use has a last writer that stopped with code 0: its claim is then made,
      labelled, and names what it began from. The workload is held either way. */
  lemma BeginDecides(config: Config, w: World, left: nat, podGone: bool, id: Name)
    requires left >= 1 && !InUse(w).0.hold && w.agent.Some? && w.agent.value.move == Some(id)
    requires w.name + "-state-" + id !in w.claims
    ensures var (next, plan) := ReconcileMove(config, Pass(w, left, true), podGone);
            var target, inUse := w.name + "-state-" + id, InUse(w).1;
            && plan.hold && next.running
            && (!MayBegin(config, w, inUse, podGone) ==> next.w == w)
            && (MayBegin(config, w, inUse, podGone) ==>
                  && IsMove(next.w.claims, target) && next.w.claims == w.claims[target := next.w.claims[target]]
                  && next.w.claims[target].mountedBy.None? && next.w.claims[target].movedTo.None?
                  && var r := RecordAt(next.w, target);
                  && r.id == id && r.phase == Created && r.source == inUse && r.sourceUID == w.claims[inUse].uid
                  && r.sourceWriter == w.claims[inUse].lastWriter && r.digest.None? && !r.copyStarted && !r.checkStarted)
  {
  }

  /** A claim under the move's name that no move of the Agent made, or one of another id, holds the agent
      and is left alone; so is everything where the chain cannot be followed. */
  lemma ForeignHolds(config: Config, w: World, left: nat, podGone: bool, id: Name)
    requires InUse(w).0.hold
             || (&& w.agent.Some? && w.agent.value.move == Some(id)
                 && var target := w.name + "-state-" + id;
                 && target in w.claims && !(IsMove(w.claims, target) && RecordAt(w, target).id == id))
    ensures var (next, plan) := ReconcileMove(config, Pass(w, left, true), podGone);
            next == Pass(w, left, true) && plan.hold
  {
  }

  /** With no move named the agent runs on the claim in use, and is held exactly while a Job runs. */
  lemma NoMoveNamed(config: Config, w: World, left: nat, podGone: bool)
    requires Links(w.claims) && !InUse(w).0.hold && (w.agent.None? || w.agent.value.move.None?)
    ensures var (next, plan) := ReconcileMove(config, Pass(w, left, true), podGone);
            var inUse := InUse(w).1;
            && next == Pass(w, left, true)
            && plan == if inUse == "state-" + w.name + "-0" then StatePlan(None, false, AnyJobRuns(w))
                       else StatePlan(Some(inUse), true, AnyJobRuns(w))
  {
    InUseFacts(w);
  }
}
