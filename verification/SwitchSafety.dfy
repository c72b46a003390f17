/** A move switches only to a faithful copy of a source no one touched since, and a move whose source
    was touched can only be refused. */
module SwitchSafety {
  import opened Options
  import opened Cluster
  import opened Fence
  import opened Move
  import opened Workload
  import opened Invariants
  import opened MoveSafety
  import opened Progress
  import opened RunSafety
  import opened MoveProgress
  import opened RunProgress

  // ---- What lets an unlinked move go on ----

  /** A move not yet linked was linked, or went on to a phase other than refused. */
  ghost predicate WentOn(r: MoveRecord, r': MoveRecord) {
    r.linkedAt.None? && (r'.linkedAt.Some? || (r'.phase != r.phase && r'.phase != Refused))
  }

  ghost predicate ContentsStay(w: World, w': World) {
    && w.claims.Keys <= w'.claims.Keys
    && forall c | c in w.claims ::
         && w'.claims[c].content == w.claims[c].content && w'.claims[c].lastWriter == w.claims[c].lastWriter
         && w'.claims[c].mountedBy == w.claims[c].mountedBy
  }

  /** It did so only while no Pod held the name and its source was as it began, and was linked only
      once verified. */
  ghost predicate Earned(w: World, w': World, target: Name, podGone: bool) {
    && IsMove(w.claims, target) && IsMove(w'.claims, target)
    && var r, r' := w.claims[target].move.value, w'.claims[target].move.value;
    && (WentOn(r, r') ==> podGone && SourceUnchanged(w, r) && ContentsStay(w, w'))
    && (r.linkedAt.None? && r'.linkedAt.Some? ==> r.phase == Verified)
  }

  lemma CopyDoesNotLink(pass: Pass, target: Name)
    requires IsMove(pass.w.claims, target)
    ensures IsMove(RunCopy(pass, target).w.claims, target)
    ensures RunCopy(pass, target).w.claims[target].move.value.linkedAt == pass.w.claims[target].move.value.linkedAt
  {
    JobDoesNotLink(pass, target, Copy);
  }

  lemma VerifyDoesNotLink(pass: Pass, target: Name)
    requires IsMove(pass.w.claims, target)
    ensures IsMove(RunVerify(pass, target).w.claims, target)
    ensures RunVerify(pass, target).w.claims[target].move.value.linkedAt == pass.w.claims[target].move.value.linkedAt
  {
    JobDoesNotLink(pass, target, Verify);
  }

  lemma JobDoesNotLink(pass: Pass, target: Name, step: Step)
    requires IsMove(pass.w.claims, target)
    ensures var w' := EnsureJob(pass, target, step).0.w;
            IsMove(w'.claims, target) && w'.claims[target].move.value.linkedAt == pass.w.claims[target].move.value.linkedAt
  {
  }

  lemma AdvanceEarns(pass: Pass, plan: StatePlan, target: Name, podGone: bool)
    requires Safe(pass.w) && Current(pass.w, target)
    ensures Earned(pass.w, AdvanceMove(pass, plan, target, podGone).0.w, target, podGone)
  {
    AdvanceMoveWrites(pass, plan, target, podGone);
    OpenMoved(pass, AdvanceMove(pass, plan, target, podGone).0, target);
    CopyDoesNotLink(pass, target);
    VerifyDoesNotLink(pass, target);
  }

  lemma MoveEarns(config: Config, pass: Pass, podGone: bool, t: Name)
    requires Safe(pass.w) && IsMove(pass.w.claims, t) && pass.w.claims[t].move.value.linkedAt.None?
    ensures Earned(pass.w, ReconcileMove(config, pass, podGone).0.w, t, podGone)
  {
    var next := ReconcileMove(config, pass, podGone).0;
    if WorksOn(pass.w, t) {
      RecordOf(pass.w, t);
      InUseMounts(pass.w);
      var (found, inUse) := InUse(pass.w);
      AdvanceEarns(pass, found.(hold := JobRunning(pass.w)), t, podGone);
    } else if target :| WorksOn(pass.w, target) {
      ContinuesMove(config, pass, podGone, target);
      OpenMoved(pass, next, target);
    } else {
      BeginsMove(config, pass, podGone);
    }
  }

  lemma ReconcileEarns(config: Config, w: World, writes: nat, t: Name)
    requires Safe(w) && IsMove(w.claims, t) && w.claims[t].move.value.linkedAt.None?
    ensures Earned(w, Reconcile(config, Pass(w, writes, true)).w, t, w.pod.None?)
  {
    var pass := Pass(w, writes, true);
    var ready, podGone := ReconcileParts(config, pass);
    MoveEarns(config, ready, podGone, t);
    EarnedSince(w, ready.w, ReconcileMove(config, ready, podGone).0.w, t, podGone);
    var after := Reconcile(config, pass).w;
    if after.claims == ready.w.claims {
      EarnedLast(w, ready.w, after, t);
    } else {
      EarnedLast(w, ReconcileMove(config, ready, podGone).0.w, after, t);
    }
  }

  lemma EarnedSince(w: World, ready: World, w': World, t: Name, podGone: bool)
    requires OnlyWriters(w, ready) && (podGone ==> ready.claims == w.claims && w.pod.None?)
    requires IsMove(w.claims, t) && Earned(ready, w', t, podGone)
    ensures Earned(w, w', t, w.pod.None?) && Earned(w, ready, t, w.pod.None?)
  {
  }

  lemma EarnedLast(w: World, next: World, w': World, t: Name)
    requires Earned(w, next, t, w.pod.None?) && (w'.claims == next.claims)
    ensures Earned(w, w', t, w.pod.None?)
  {
  }

  // ---- The switch ----

  /** With no Pod left, a source is as its move began exactly when no Pod was created on it since. */
  lemma UnchangedIffUntouched(w: World, t: Name)
    requires Safe(w) && w.pod.None? && IsMove(w.claims, t)
    ensures SourceUnchanged(w, w.claims[t].move.value) <==> Untouched(w.claims, w.claims[t].move.value)
  {
    Open(w);
    assert Recorded(w.name, w.claims, t);
    assert SealedClaim(w.pod, w.claims[w.claims[t].move.value.source]);
  }

  /** The source's last writer exited 0 and it holds what it held then; the target holds that state
      and nothing else, and no Pod was ever created on it. */
  ghost predicate FaithfulCopy(w: World, t: Name) {
    && IsMove(w.claims, t)
    && var r := w.claims[t].move.value;
    && w.pod.None? && r.source in w.claims
    && DrainedCleanly(w.claims[r.source]) && w.claims[r.source].lastWriter == r.sourceWriter
    && w.claims[r.source].content == w.claims[r.source].sealed
    && w.claims[t].content == Content(w.claims[r.source].sealed.state, 0)
    && w.claims[t].mountedBy.None?
  }

  lemma VerifiedIsFaithful(w: World, t: Name)
    requires Safe(w) && w.pod.None? && IsMove(w.claims, t)
    requires var r := w.claims[t].move.value; r.linkedAt.None? && r.phase == Verified && Untouched(w.claims, r)
    ensures FaithfulCopy(w, t)
  {
    RecordOf(w, t);
    Open(w);
    assert SealedClaim(w.pod, w.claims[w.claims[t].move.value.source]);
  }

  /** A pass that links a move, wherever it stopped, links a faithful copy and changes no content. */
  lemma SwitchIsFaithful(config: Config, w: World, writes: nat, t: Name)
    requires Safe(w) && IsMove(w.claims, t) && w.claims[t].move.value.linkedAt.None?
    ensures var w' := Reconcile(config, Pass(w, writes, true)).w;
            && IsMove(w'.claims, t)
            && (w'.claims[t].move.value.linkedAt.Some? ==> FaithfulCopy(w, t) && ContentsStay(w, w'))
  {
    ReconcileEarns(config, w, writes, t);
    var w' := Reconcile(config, Pass(w, writes, true)).w;
    if w'.claims[t].move.value.linkedAt.Some? {
      UnchangedIffUntouched(w, t);
      VerifiedIsFaithful(w, t);
    }
  }

  /** In every run, the memory is switched only to a faithful copy. */
  lemma RunSwitchesToCopies(run: seq<World>, i: nat, t: Name)
    requires IsRun(run) && i + 1 < |run| && IsMove(run[i].claims, t) && run[i].claims[t].move.value.linkedAt.None?
    ensures IsMove(run[i + 1].claims, t)
    ensures run[i + 1].claims[t].move.value.linkedAt.Some? ==> FaithfulCopy(run[i], t) && ContentsStay(run[i], run[i + 1])
  {
    RunIsSafe(run, i);
    assert StepAt(run, i);
    NextLinksCopies(run[i], run[i + 1], t);
  }

  lemma NextLinksCopies(w: World, w': World, t: Name)
    requires Safe(w) && Next(w, w') && IsMove(w.claims, t) && w.claims[t].move.value.linkedAt.None?
    ensures IsMove(w'.claims, t)
    ensures w'.claims[t].move.value.linkedAt.Some? ==> FaithfulCopy(w, t) && ContentsStay(w, w')
  {
    if ManagerStep(w, w') {
      var config: Config, writes: nat :| w' == Reconcile(config, Pass(w, writes, true)).w;
      SwitchIsFaithful(config, w, writes, t);
    } else {
      EnvironmentSame(w, w');
    }
  }

  // ---- A touched source ----

  /** A Pod was created on the source of a move not yet linked, since the move began. */
  ghost predicate Touched(w: World, t: Name) {
    && IsMove(w.claims, t)
    && w.claims[t].move.value.linkedAt.None?
    && !Untouched(w.claims, w.claims[t].move.value)
  }

  ghost predicate MountsGrow(w: World, w': World) {
    && w.claims.Keys <= w'.claims.Keys
    && forall c | c in w.claims && w.claims[c].mountedBy.Some? ::
         w'.claims[c].mountedBy.Some? && w'.claims[c].mountedBy.value >= w.claims[c].mountedBy.value
  }

  lemma ReconcileMounts(config: Config, pass: Pass)
    requires Safe(pass.w)
    ensures MountsGrow(pass.w, Reconcile(config, pass).w)
  {
    var ready, podGone := ReconcileParts(config, pass);
    var next := ReconcileMove(config, ready, podGone).0;
    if target :| WorksOn(ready.w, target) {
      ContinuesMove(config, ready, podGone, target);
      OpenMoved(ready, next, target);
    } else {
      BeginsMove(config, ready, podGone);
    }
  }

  lemma EnvironmentMounts(w: World, w': World)
    requires Safe(w) && Environment(w, w')
    ensures MountsGrow(w, w')
  {
    if PodCreatedStep(w, w') {
      Open(w);
      assert forall c | c in w.claims :: ClaimClocked(w.claims[c], w.clock);
    } else if exists id :: JobStep(w, w', id) {
      var id :| JobStep(w, w', id);
      assert MountsGrow(w, w');
    }
  }

  lemma TouchedStep(w: World, w': World, t: Name)
    requires Safe(w) && Next(w, w') && Touched(w, t)
    ensures Touched(w', t)
    ensures w'.claims[t].move.value.phase in {w.claims[t].move.value.phase, Refused}
  {
    RecordOf(w, t);
    NextClimbs(w, w');
    if ManagerStep(w, w') {
      var config: Config, writes: nat :| w' == Reconcile(config, Pass(w, writes, true)).w;
      ReconcileEarns(config, w, writes, t);
      ReconcileMounts(config, Pass(w, writes, true));
      if w.pod.None? {
        UnchangedIffUntouched(w, t);
      }
    } else {
      EnvironmentSame(w, w');
      EnvironmentMounts(w, w');
    }
  }

  /** Once a Pod was created on a move's source before the move was linked, the move is never linked
      for the rest of the run, its phase stays or is refused, and whenever no Pod is left, the
      source's last writer differs from the one the move recorded. */
  lemma {:induction false} TouchedNeverSwitches(run: seq<World>, i: nat, j: nat, t: Name)
    requires IsRun(run) && i <= j < |run| && Touched(run[i], t)
    ensures Touched(run[j], t)
    ensures run[j].claims[t].move.value.phase in {run[i].claims[t].move.value.phase, Refused}
    ensures run[j].pod.None? ==> !SourceUnchanged(run[j], run[j].claims[t].move.value)
    decreases j
  {
    RunIsSafe(run, j);
    if i < j {
      TouchedNeverSwitches(run, i, j - 1, t);
      RunIsSafe(run, j - 1);
      assert StepAt(run, j - 1);
      TouchedStep(run[j - 1], run[j], t);
    }
    if run[j].pod.None? {
      UnchangedIffUntouched(run[j], t);
    }
  }

  /** And the next pass that works on it with no Pod left refuses it. */
  lemma TouchedIsRefused(config: Config, pass: Pass, t: Name)
    requires Safe(pass.w) && pass.w.pod.None? && pass.running && pass.left > 0
    requires WorksOn(pass.w, t) && Touched(pass.w, t) && pass.w.claims[t].move.value.phase in {Created, Copied, Verified}
    ensures var next := ReconcileMove(config, pass, true).0;
            IsMove(next.w.claims, t) && next.w.claims[t].move.value.phase == Refused
  {
    UnchangedIffUntouched(pass.w, t);
    InUseMounts(pass.w);
    RecordOf(pass.w, t);
  }
}
