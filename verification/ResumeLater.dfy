/** A pass that stopped, whatever the environment did before the next one: the Pod is let go on evidence
    read anew, and a move goes on in the same record under the same id. */
module ResumeLater {
  import opened Options
  import opened Cluster
  import opened Fence
  import opened Move
  import opened Invariants
  import opened FenceSafety
  import opened MoveSafety
  import opened Progress
  import opened RunSafety
  import opened RunProgress
  import opened MoveProgress
  import opened Resume

  ghost predicate EnvironmentAt(path: seq<World>, i: nat)
    requires i < |path| - 1
  {
    Environment(path[i], path[i + 1])
  }

  /** Steps of the environment alone, from one state to another. */
  ghost predicate Meanwhile(path: seq<World>, w: World, last: World) {
    && path != [] && path[0] == w && path[|path| - 1] == last
    && forall i | 0 <= i < |path| - 1 :: EnvironmentAt(path, i)
  }

  // ---- A release ----

  /** The Pod holds its name while it carries the fence. */
  ghost predicate HeldDeleting(w: World, uid: UID) {
    w.pod.Some? && w.pod.value.uid == uid && w.pod.value.deleting && w.pod.value.finalizer
  }

  lemma StaysHeld(w: World, w': World, uid: UID)
    requires Environment(w, w') && HeldDeleting(w, uid)
    ensures HeldDeleting(w', uid)
  {
    if exists id :: JobStep(w, w', id) {
      var id :| JobStep(w, w', id);
    }
  }

  lemma {:induction false} HeldMeanwhile(path: seq<World>, w: World, last: World, uid: UID, i: nat)
    requires Meanwhile(path, w, last) && HeldDeleting(w, uid) && i < |path|
    ensures HeldDeleting(path[i], uid)
  {
    if i > 0 {
      HeldMeanwhile(path, w, last, uid, i - 1);
      assert EnvironmentAt(path, i - 1);
      StaysHeld(path[i - 1], path[i], uid);
    }
  }

  /** A release stopped short of the finalizer leaves the Pod deleting and held. Whatever then happens to
      it, its node, its claim's content, the Jobs, the Agent and its spec: the first pass that can read its
      evidence, with four writes, lets it go, on evidence as it stands then. */
  lemma ReleaseResumesLater(config: Config, w: World, path: seq<World>, last: World, uid: UID, again: nat)
    requires HeldDeleting(w, uid) && Meanwhile(path, w, last) && again >= 4
    requires last.agent.Some? && last.pod.Some? && ReadFence(last, last.pod.value).Ok?
    ensures var resumed := ReconcileFence(config, Pass(last, again, true)).0;
            && resumed.running && last.pod.value.uid == uid
            && resumed.w.pod == Some(last.pod.value.(finalizer := false))
            && ReleasedOnEvidence(config, last, resumed.w, last.pod.value)
  {
    HeldMeanwhile(path, w, last, uid, |path| - 1);
    FourWritesRelease(config, Pass(last, again, true), last.pod.value);
    FinalizerComesOffOnEvidence(config, Pass(last, again, true), last.pod.value);
  }

  // ---- A move ----

  /** No record of a move, and no claim's name for where the memory moved, differs. */
  ghost predicate MovesStand(w: World, w': World) {
    && w'.name == w.name && w.claims.Keys <= w'.claims.Keys
    && forall c | c in w.claims ::
         && w'.claims[c].labelled == w.claims[c].labelled && w'.claims[c].move == w.claims[c].move
         && w'.claims[c].movedTo == w.claims[c].movedTo
  }

  lemma EnvironmentStands(w: World, w': World)
    requires Environment(w, w')
    ensures MovesStand(w, w')
  {
    if exists id :: JobStep(w, w', id) {
      var id :| JobStep(w, w', id);
      assert MovesStand(w, w');
    }
  }

  lemma {:induction false} StandMeanwhile(path: seq<World>, w: World, last: World, i: nat)
    requires Meanwhile(path, w, last) && i < |path|
    ensures MovesStand(w, path[i])
  {
    if i > 0 {
      StandMeanwhile(path, w, last, i - 1);
      assert EnvironmentAt(path, i - 1);
      EnvironmentStands(path[i - 1], path[i]);
    }
  }

  lemma {:induction false} UseStands(w: World, w': World, name: Name, fuel: nat)
    requires MovesStand(w, w') && OwnClaim(w.name) in w.claims && !StateInUse(w, name, fuel).0.hold
    ensures StateInUse(w', name, fuel) == StateInUse(w, name, fuel)
    decreases fuel
  {
    match w.claims[name].movedTo
    case Some(next) => UseStands(w, w', next, fuel - 1);
    case None =>
  }

  /** The memory is on the move's claim, and the spec names the move. */
  ghost predicate OnTarget(w: World, target: Name) {
    WorksOn(w, target) && InUse(w).1 == target
  }

  lemma OnTargetLater(w: World, path: seq<World>, last: World, target: Name)
    requires Safe(w) && OnTarget(w, target) && Meanwhile(path, w, last)
    requires last.agent.Some? && last.agent.value.move == w.agent.value.move
    ensures OnTarget(last, target) && MovesStand(w, last) && InUse(last) == InUse(w)
    ensures OnChain(w, target)
  {
    InUseMounts(w);
    RecordOf(w, target);
    StandMeanwhile(path, w, last, |path| - 1);
    UseStands(w, last, OwnClaim(w.name), MAX_MOVES);
  }

  /** Stopped between the source's name and the phase, and whatever the environment did since: the next pass
      with the move still named writes the phase, and what the first Pod on the copy then decides, in the
      same record, which differs in nothing else. */
  lemma SwitchResumesLater(config: Config, w: World, path: seq<World>, last: World, target: Name, left: nat, podGone: bool)
    requires Safe(w) && OnTarget(w, target) && w.claims[target].move.value.phase == Verified
    requires Meanwhile(path, w, last) && last.agent.Some? && last.agent.value.move == w.agent.value.move && left > 0
    ensures var next := ReconcileMove(config, Pass(last, left, true), podGone).0.w;
            Settles(w.claims[target].move.value, next, target)
  {
    OnTargetLater(w, path, last, target);
    RecordOf(w, target);
    var plan := InUse(last).0.(hold := JobRunning(last));
    var pass := Pass(last, left, true);
    assert ReconcileMove(config, pass, podGone) == SettleMove(pass, plan, target);
    SettlesVerified(pass, plan, target);
  }

  /** What settling leaves of a record the source still names: its phase on, or refused and unlinked. */
  ghost predicate Settles(r: MoveRecord, w: World, target: Name) {
    && IsMove(w.claims, target) && r.source in w.claims
    && var r' := w.claims[target].move.value;
    && r' == r.(phase := r'.phase, unlinks := r'.unlinks) && r'.phase in {Switched, Accepted, Refused}
    && (r'.phase != Refused ==> r'.unlinks == r.unlinks && w.claims[r.source].movedTo == Some(target))
  }

  lemma RestoresRefused(pass: Pass, r: MoveRecord, target: Name)
    requires IsMove(pass.w.claims, target) && pass.w.claims[target].move.value == r.(phase := Refused)
    requires r.source in pass.w.claims && r.source != target
    ensures Settles(r, RestoreSource(pass, target).0.w, target)
  {
  }

  lemma SettlesVerified(pass: Pass, plan: StatePlan, target: Name)
    requires IsMove(pass.w.claims, target) && pass.w.claims[target].move.value.phase == Verified && pass.running && pass.left > 0
    requires var source := pass.w.claims[target].move.value.source;
             source in pass.w.claims && source != target && pass.w.claims[source].movedTo == Some(target)
    ensures Settles(pass.w.claims[target].move.value, SettleMove(pass, plan, target).0.w, target)
  {
    var r := pass.w.claims[target].move.value;
    var switched := Pass(WithPhase(pass.w, target, Switched), pass.left - 1, true);
    assert SettleMove(pass, plan, target) == SettlePod(switched, plan, target);
    if switched.w.pod.Some? && switched.w.pod.value.claim == target && ExitedNonZero(switched.w.pod.value) {
      var refused := Put(switched, WithPhase(switched.w, target, Refused));
      if refused.running {
        RestoresRefused(refused, r, target);
      }
    } else {
      assert Settles(r, switched.w, target) && Settles(r, WithPhase(switched.w, target, Accepted), target);
    }
  }

  /** Stopped between the refusal and the removal of the source's name, and whatever the environment did
      since: the next pass with the move still named removes it, and the move stays refused. */
  lemma RefusalResumesLater(config: Config, w: World, path: seq<World>, last: World, target: Name, left: nat, podGone: bool)
    requires Safe(w) && OnTarget(w, target) && w.claims[target].move.value.phase == Refused
    requires Meanwhile(path, w, last) && last.agent.Some? && last.agent.value.move == w.agent.value.move && left > 0
    ensures var next := ReconcileMove(config, Pass(last, left, true), podGone).0;
            && next.running && IsMove(next.w.claims, target)
            && var r := w.claims[target].move.value;
            && next.w.claims[target].move.value == r.(unlinks := 1)
            && r.source in next.w.claims && next.w.claims[r.source].movedTo.None?
  {
    OnTargetLater(w, path, last, target);
    RecordOf(w, target);
    var plan := InUse(last).0.(hold := JobRunning(last));
    var pass := Pass(last, left, true);
    assert ReconcileMove(config, pass, podGone) == SettleMove(pass, plan, target);
    assert SettleMove(pass, plan, target) == RestoreSource(pass, target);
  }

  // ---- Every crash point of a move ----

  /** Where a pass over a move may stop: with nothing written; at the mark of a Job; on the move's claim,
      between two writes of its settlement; or with the link written to a chain the memory does not follow. */
  ghost predicate StoppedAt(w: World, v: World, target: Name) {
    || v == w
    || MarkedOnly(w, v, target)
    || (OnTarget(v, target) && v.claims[target].move.value.phase in {Verified, Switched, Refused})
    || LinkedElsewhere(w, v, target)
  }

  /** The chain is then too long to follow, or the source is on none. */
  ghost predicate LinkedElsewhere(w: World, v: World, target: Name) {
    && IsMove(w.claims, target) && Record(w, target).source in w.claims
    && v == WithLink(w, Record(w, target).source, target, true) && !OnTarget(v, target)
  }

  lemma SettlePhases(w: World, k: nat, plan: StatePlan, target: Name)
    requires Linkable(w, target)
    requires !SettleMove(Pass(w, k, true), plan, target).0.running
    ensures var v := SettleMove(Pass(w, k, true), plan, target).0.w;
            && IsMove(v.claims, target)
            && (v == w || v.claims[target].move.value.phase in {Switched, Refused})
  {
    if k == 0 {
      SettleFirst(w, plan, target);
    } else if Record(w, target).phase == Verified {
      SettleVerified(w, k, plan, target);
      PodPhases(WithPhase(w, target, Switched), k - 1, plan, target);
    } else if Record(w, target).phase == Switched {
      SettleSwitched(w, k, plan, target);
      PodPhases(w, k, plan, target);
    } else {
      SettleOnce(w, k, plan, target);
    }
  }

  lemma PodPhases(w: World, k: nat, plan: StatePlan, target: Name)
    requires Linkable(w, target) && w.claims[target].move.value.phase == Switched
    requires !SettlePod(Pass(w, k, true), plan, target).0.running
    ensures var v := SettlePod(Pass(w, k, true), plan, target).0.w;
            IsMove(v.claims, target) && v.claims[target].move.value.phase in {Switched, Refused}
  {
    var v := SettlePod(Pass(w, k, true), plan, target).0.w;
    assert v == w || v == WithPhase(w, target, Refused);
  }

  lemma Stops(config: Config, w: World, k: nat, podGone: bool, target: Name)
    requires Safe(w) && WorksOn(w, target) && (podGone ==> w.pod.None?)
    requires !ReconcileMove(config, Pass(w, k, true), podGone).0.running
    ensures StoppedAt(w, ReconcileMove(config, Pass(w, k, true), podGone).0.w, target)
  {
    RecordOf(w, target);
    InUseMounts(w);
    var plan := InUse(w).0.(hold := JobRunning(w));
    var v := ReconcileMove(config, Pass(w, k, true), podGone).0.w;
    if InUse(w).1 == target {
      SettlePhases(w, k, plan, target);
      SettleKeepsUse(w, k, plan, target);
    } else {
      AdvanceStops(w, k, plan, target, podGone);
      if v != w && !MarkedOnly(w, v, target) {
        assert v.claims[target].move.value.phase == Verified;
      }
    }
  }

  /** What the next pass makes of the stopped one, in the record the stopped one left: a marked Job that
      was not made refuses the move; a phase not written, or a Pod not yet judged, is settled; and a name not
      yet taken off is. Each changes nothing else of the record. */
  ghost predicate Resumed(w: World, v: World, last: World, next: World, target: Name, podGone: bool) {
    && IsMove(v.claims, target)
    && var r := v.claims[target].move.value;
    && (MarkedOnly(w, v, target) && podGone ==> IsMove(next.claims, target) && next.claims[target].move.value == r.(phase := Refused))
    && (OnTarget(v, target) && r.phase in {Verified, Switched} ==> Settles(r, next, target))
    && (OnTarget(v, target) && r.phase == Refused ==>
          && IsMove(next.claims, target) && next.claims[target].move.value == r.(unlinks := 1)
          && r.source in next.claims && next.claims[r.source].movedTo.None?)
  }

  /** Wherever a pass over a move stops, and whatever the environment did before the next, the move still
      named: the stop is one of these, and the next pass goes on from it in the same record under the same
      id. */
  lemma MoveResumesLater(config: Config, w: World, k: nat, podGone: bool, target: Name,
                         path: seq<World>, last: World, left: nat, podGoneNow: bool)
    requires Safe(w) && WorksOn(w, target) && (podGone ==> w.pod.None?)
    requires !ReconcileMove(config, Pass(w, k, true), podGone).0.running
    requires Meanwhile(path, ReconcileMove(config, Pass(w, k, true), podGone).0.w, last)
    requires last.agent.Some? && last.agent.value.move == w.agent.value.move && left > 0
    ensures var v := ReconcileMove(config, Pass(w, k, true), podGone).0.w;
            && StoppedAt(w, v, target)
            && Resumed(w, v, last, ReconcileMove(config, Pass(last, left, true), podGoneNow).0.w, target, podGoneNow)
  {
    var v := ReconcileMove(config, Pass(w, k, true), podGone).0.w;
    Stops(config, w, k, podGone, target);
    ReconcileMoveKeeps(config, Pass(w, k, true), podGone);
    RecordOf(w, target);
    if MarkedOnly(w, v, target) && podGoneNow {
      MarkedOnlyLater(config, w, v, path, last, target, left);
    }
    if OnTarget(v, target) && v.claims[target].move.value.phase in {Verified, Switched} {
      SettlesLater(config, v, path, last, target, left, podGoneNow);
    }
    if OnTarget(v, target) && v.claims[target].move.value.phase == Refused {
      RefusalResumesLater(config, v, path, last, target, left, podGoneNow);
    }
  }

  lemma SettlesLater(config: Config, w: World, path: seq<World>, last: World, target: Name, left: nat, podGone: bool)
    requires Safe(w) && OnTarget(w, target) && w.claims[target].move.value.phase in {Verified, Switched}
    requires Meanwhile(path, w, last) && last.agent.Some? && last.agent.value.move == w.agent.value.move && left > 0
    ensures Settles(w.claims[target].move.value, ReconcileMove(config, Pass(last, left, true), podGone).0.w, target)
  {
    if w.claims[target].move.value.phase == Verified {
      SwitchResumesLater(config, w, path, last, target, left, podGone);
    } else {
      OnTargetLater(w, path, last, target);
      RecordOf(w, target);
      var plan := InUse(last).0.(hold := JobRunning(last));
      var pass := Pass(last, left, true);
      assert ReconcileMove(config, pass, podGone) == SettleMove(pass, plan, target);
      assert SettleMove(pass, plan, target) == SettlePod(pass, plan, target);
      SettlesSwitched(pass, plan, target);
    }
  }

  lemma SettlesSwitched(pass: Pass, plan: StatePlan, target: Name)
    requires IsMove(pass.w.claims, target) && pass.w.claims[target].move.value.phase == Switched && pass.running
    requires var source := pass.w.claims[target].move.value.source;
             source in pass.w.claims && source != target && pass.w.claims[source].movedTo == Some(target)
    ensures Settles(pass.w.claims[target].move.value, SettlePod(pass, plan, target).0.w, target)
  {
    var r := pass.w.claims[target].move.value;
    if pass.w.pod.Some? && pass.w.pod.value.claim == target && ExitedNonZero(pass.w.pod.value) {
      var refused := Put(pass, WithPhase(pass.w, target, Refused));
      if refused.running {
        RestoresRefused(refused, r, target);
      }
    } else {
      assert Settles(r, pass.w, target) && Settles(r, WithPhase(pass.w, target, Accepted), target);
    }
  }

  lemma {:induction false} JobsStand(path: seq<World>, w: World, last: World, i: nat)
    requires Meanwhile(path, w, last) && i < |path|
    ensures path[i].jobs.Keys <= w.jobs.Keys
  {
    if i > 0 {
      JobsStand(path, w, last, i - 1);
      assert EnvironmentAt(path, i - 1);
      EnvironmentJobs(path[i - 1], path[i]);
    }
  }

  lemma EnvironmentJobs(w: World, w': World)
    requires Environment(w, w')
    ensures w'.jobs.Keys <= w.jobs.Keys
  {
    if exists id :: JobStep(w, w', id) {
      var id :| JobStep(w, w', id);
    }
  }

  lemma MarkedOnlyLater(config: Config, w: World, v: World, path: seq<World>, last: World, target: Name, left: nat)
    requires Safe(w) && WorksOn(w, target) && MarkedOnly(w, v, target) && Meanwhile(path, v, last)
    requires last.agent.Some? && last.agent.value.move == w.agent.value.move && left > 0
    ensures var next := ReconcileMove(config, Pass(last, left, true), true).0.w;
            IsMove(next.claims, target) && next.claims[target].move.value == v.claims[target].move.value.(phase := Refused)
  {
    RecordOf(w, target);
    InUseMounts(w);
    var r := v.claims[target].move.value;
    SameUse(w, v, OwnClaim(w.name), MAX_MOVES);
    StandMeanwhile(path, v, last, |path| - 1);
    UseStands(v, last, OwnClaim(w.name), MAX_MOVES);
    JobsStand(path, v, last, |path| - 1);
    var plan := InUse(last).0.(hold := JobRunning(last));
    var pass := Pass(last, left, true);
    assert Record(last, target) == r && JobKey(r.id, StepOfPhase(r.phase)) !in last.jobs;
    assert ReconcileMove(config, pass, true) == AdvanceMove(pass, plan, target, true);
    RefusesMarked(pass, plan, target);
  }

  lemma RefusesMarked(pass: Pass, plan: StatePlan, target: Name)
    requires pass.running && pass.left > 0 && IsMove(pass.w.claims, target)
    requires var r := pass.w.claims[target].move.value;
             && r.phase in {Created, Copied} && JobKey(r.id, StepOfPhase(r.phase)) !in pass.w.jobs
             && (if r.phase == Created then r.copyStarted else r.checkStarted)
    ensures var next := AdvanceMove(pass, plan, target, true).0.w;
            IsMove(next.claims, target) && next.claims[target].move.value == pass.w.claims[target].move.value.(phase := Refused)
  {
  }
}
