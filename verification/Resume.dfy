/** A pass stopped in the middle of a move goes on as if it had not been stopped, except between the
    mark of a Job and the Job: that move is refused. */
module Resume {
  import opened Options
  import opened Cluster
  import opened Fence
  import opened Move
  import opened Invariants
  import opened MoveSafety
  import opened Progress
  import opened RunSafety
  import opened MoveProgress
  import opened RunProgress

  lemma SettleResumes(w: World, k: nat, m: nat, plan: StatePlan, again: StatePlan, target: Name)
    requires Linkable(w, target) && w.claims[target].move.value.unlinks == 0
    requires !SettleMove(Pass(w, k, true), plan, target).0.running
    ensures var stopped := SettleMove(Pass(w, k, true), plan, target).0.w;
            && IsMove(stopped.claims, target)
            && SettleMove(Pass(stopped, m, true), again, target).0.w == SettleMove(Pass(w, k + m, true), plan, target).0.w
  {
    if k == 0 {
      SettleIgnoresPlan(Pass(w, m, true), plan, again, target);
      SettleFirst(w, plan, target);
    } else if Record(w, target).phase == Verified {
      VerifiedResumes(w, k, m, plan, again, target);
    } else if Record(w, target).phase == Switched {
      SettleSwitched(w, k, plan, target);
      SettleSwitched(w, k + m, plan, target);
      PodResumes(w, k, m, plan, again, target);
    } else {
      SettleOnce(w, k, plan, target);
    }
  }

  lemma VerifiedResumes(w: World, k: nat, m: nat, plan: StatePlan, again: StatePlan, target: Name)
    requires Linkable(w, target) && w.claims[target].move.value.unlinks == 0
    requires w.claims[target].move.value.phase == Verified && k > 0
    requires !SettleMove(Pass(w, k, true), plan, target).0.running
    ensures var stopped := SettleMove(Pass(w, k, true), plan, target).0.w;
            && IsMove(stopped.claims, target)
            && SettleMove(Pass(stopped, m, true), again, target).0.w == SettleMove(Pass(w, k + m, true), plan, target).0.w
  {
    SettleVerified(w, k, plan, target);
    SettleVerified(w, k + m, plan, target);
    PodResumes(WithPhase(w, target, Switched), k - 1, m, plan, again, target);
  }

  lemma SettleSwitched(w: World, n: nat, plan: StatePlan, target: Name)
    requires IsMove(w.claims, target) && w.claims[target].move.value.phase == Switched
    ensures SettleMove(Pass(w, n, true), plan, target) == SettlePod(Pass(w, n, true), plan, target)
  {
  }

  lemma SettleVerified(w: World, n: nat, plan: StatePlan, target: Name)
    requires IsMove(w.claims, target) && w.claims[target].move.value.phase == Verified && n > 0
    ensures SettleMove(Pass(w, n, true), plan, target) == SettlePod(Pass(WithPhase(w, target, Switched), n - 1, true), plan, target)
  {
  }

  lemma SettleOnce(w: World, k: nat, plan: StatePlan, target: Name)
    requires Linkable(w, target) && w.claims[target].move.value.phase !in {Verified, Switched} && k > 0
    ensures SettleMove(Pass(w, k, true), plan, target).0.running
  {
  }

  lemma SettleFirst(w: World, plan: StatePlan, target: Name)
    requires IsMove(w.claims, target)
    ensures SettleMove(Pass(w, 0, true), plan, target).0.w == w
  {
  }

  lemma PodResumes(w: World, k: nat, m: nat, plan: StatePlan, again: StatePlan, target: Name)
    requires Linkable(w, target) && w.claims[target].move.value.unlinks == 0
    requires w.claims[target].move.value.phase == Switched
    requires !SettlePod(Pass(w, k, true), plan, target).0.running
    ensures var stopped := SettlePod(Pass(w, k, true), plan, target).0.w;
            && IsMove(stopped.claims, target)
            && SettleMove(Pass(stopped, m, true), again, target).0.w == SettlePod(Pass(w, k + m, true), plan, target).0.w
  {
  }

  /** Stopped before the source names the target, or between that and the phase. */
  lemma SwitchStops(w: World, k: nat, target: Name)
    requires Safe(w) && Current(w, target) && w.claims[target].move.value.phase == Verified && w.pod.None?
    requires !SwitchMove(Pass(w, k, true), target).0.running
    ensures Record(w, target).source in w.claims
    ensures var stopped := SwitchMove(Pass(w, k, true), target).0.w;
            || (k == 0 && stopped == w)
            || (k == 1 && w.claims[Record(w, target).source].movedTo != Some(target)
                && stopped == WithLink(w, Record(w, target).source, target, true))
  {
    RecordOf(w, target);
  }

  lemma SwitchResumes(w: World, m: nat, target: Name)
    requires Safe(w) && Current(w, target) && w.claims[target].move.value.phase == Verified
    requires Record(w, target).source in w.claims && w.claims[Record(w, target).source].movedTo != Some(target)
    ensures var linked := WithLink(w, Record(w, target).source, target, true);
            && SwitchMove(Pass(w, 1 + m, true), target).0.w
               == SettleMove(Pass(linked, m, true), StatePlan(Some(target), true, false), target).0.w
            && SwitchMove(Pass(linked, m, true), target).0.w == SwitchMove(Pass(w, 1 + m, true), target).0.w
            && (SourceUnchanged(linked, Record(linked, target)) <==> SourceUnchanged(w, Record(w, target)))
  {
    RecordOf(w, target);
  }

  lemma SettleIgnoresPlan(pass: Pass, plan: StatePlan, again: StatePlan, target: Name)
    requires IsMove(pass.w.claims, target)
    ensures SettleMove(pass, plan, target).0 == SettleMove(pass, again, target).0
  {
  }

  function StepOfPhase(phase: MovePhase): Step {
    if phase == Created then Copy else Verify
  }

  /** The mark of a Job was written, and the pass stopped before the Job was. */
  ghost predicate MarkedOnly(w: World, w': World, target: Name) {
    && IsMove(w.claims, target) && w.claims[target].move.value.phase in {Created, Copied}
    && var r := w.claims[target].move.value;
    && JobKey(r.id, StepOfPhase(r.phase)) !in w.jobs
    && w' == WithMark(w, target, StepOfPhase(r.phase))
  }

  lemma JobStops(w: World, k: nat, target: Name)
    requires IsMove(w.claims, target) && w.claims[target].move.value.phase in {Created, Copied}
    ensures var stopped := EnsureJob(Pass(w, k, true), target, StepOfPhase(w.claims[target].move.value.phase)).0;
            !stopped.running ==> (k == 0 && stopped.w == w) || MarkedOnly(w, stopped.w, target)
  {
  }

  /** A step with one write, or with a mark and a Job, wrote nothing before it stopped, or stopped at
      the mark. */
  lemma StepStops(w: World, k: nat, target: Name)
    requires IsMove(w.claims, target) && w.claims[target].move.value.phase in {Created, Copied}
    ensures var stopped := if w.claims[target].move.value.phase == Created then RunCopy(Pass(w, k, true), target)
                           else RunVerify(Pass(w, k, true), target);
            !stopped.running ==> (k == 0 && stopped.w == w) || MarkedOnly(w, stopped.w, target)
  {
    JobStops(w, k, target);
  }

  lemma AdvanceStops(w: World, k: nat, plan: StatePlan, target: Name, podGone: bool)
    requires Safe(w) && Current(w, target) && (podGone ==> w.pod.None?)
    requires !AdvanceMove(Pass(w, k, true), plan, target, podGone).0.running
    ensures var stopped := AdvanceMove(Pass(w, k, true), plan, target, podGone).0.w;
            || (k == 0 && stopped == w)
            || MarkedOnly(w, stopped, target)
            || (k == 1 && podGone && SourceUnchanged(w, Record(w, target)) && Record(w, target).phase == Verified
                && w.claims[Record(w, target).source].movedTo != Some(target)
                && stopped == WithLink(w, Record(w, target).source, target, true))
  {
    var record := Record(w, target);
    if record.phase !in {Refused, Switched, Accepted} && podGone && SourceUnchanged(w, record) {
      match record.phase {
        case Verified => SwitchStops(w, k, target);
        case _ => StepStops(w, k, target);
      }
    }
  }

  /** Wherever a move's pass stops, but at the mark of a Job, the next pass leaves the objects as the
      one pass would have that was not stopped: between a source's name and the phase, and between a
      refusal and the name's removal, the same record under the same id. (A chain the first pass made
      longer than may be followed is not followed by the second.) */
  lemma MoveResumes(config: Config, w: World, k: nat, m: nat, podGone: bool, target: Name)
    requires Safe(w) && WorksOn(w, target) && (podGone ==> w.pod.None?)
    requires !ReconcileMove(config, Pass(w, k, true), podGone).0.running
    requires var stopped := ReconcileMove(config, Pass(w, k, true), podGone).0.w;
             !MarkedOnly(w, stopped, target) && !InUse(stopped).0.hold
    ensures ReconcileMove(config, Pass(ReconcileMove(config, Pass(w, k, true), podGone).0.w, m, true), podGone).0.w
            == ReconcileMove(config, Pass(w, k + m, true), podGone).0.w
  {
    RecordOf(w, target);
    var plan := InUse(w).0.(hold := JobRunning(w));
    var stopped := ReconcileMove(config, Pass(w, k, true), podGone).0.w;
    var again := InUse(stopped).0.(hold := JobRunning(stopped));
    if InUse(w).1 == target {
      InUseMounts(w);
      SettleResumes(w, k, m, plan, again, target);
      SettleKeepsUse(w, k, plan, target);
    } else {
      AdvanceStops(w, k, plan, target, podGone);
      if stopped != w {
        SwitchResumes(w, m, target);
        SettleIgnoresPlan(Pass(stopped, m, true), StatePlan(Some(target), true, false), again, target);
      }
    }
  }

  ghost predicate SameNames(w: World, w': World) {
    && w'.name == w.name && w'.agent == w.agent && w'.claims.Keys == w.claims.Keys
    && forall c | c in w.claims ::
         && w'.claims[c].movedTo == w.claims[c].movedTo && (Ours(w'.claims[c]) <==> Ours(w.claims[c]))
         && (Ours(w.claims[c]) ==> w'.claims[c].move.value.id == w.claims[c].move.value.id)
  }

  lemma PodStops(w: World, k: nat, plan: StatePlan, target: Name)
    requires Linkable(w, target)
    requires !SettlePod(Pass(w, k, true), plan, target).0.running
    ensures SameNames(w, SettlePod(Pass(w, k, true), plan, target).0.w)
  {
    var stopped := SettlePod(Pass(w, k, true), plan, target).0.w;
    assert stopped == w || stopped == WithPhase(w, target, Refused);
  }

  lemma VerifiedStops(w: World, k: nat, plan: StatePlan, target: Name)
    requires Linkable(w, target) && w.claims[target].move.value.phase == Verified && k > 0
    requires !SettleMove(Pass(w, k, true), plan, target).0.running
    ensures SameNames(w, SettleMove(Pass(w, k, true), plan, target).0.w)
  {
    SettleVerified(w, k, plan, target);
    PodStops(WithPhase(w, target, Switched), k - 1, plan, target);
  }

  lemma SettleStops(w: World, k: nat, plan: StatePlan, target: Name)
    requires Linkable(w, target)
    requires !SettleMove(Pass(w, k, true), plan, target).0.running
    ensures SameNames(w, SettleMove(Pass(w, k, true), plan, target).0.w)
  {
    if k == 0 {
      SettleFirst(w, plan, target);
    } else if Record(w, target).phase == Verified {
      VerifiedStops(w, k, plan, target);
    } else if Record(w, target).phase == Switched {
      SettleSwitched(w, k, plan, target);
      PodStops(w, k, plan, target);
    } else {
      SettleOnce(w, k, plan, target);
    }
  }

  /** Stopped, a settlement has not taken the source's name for the target off. */
  lemma SettleKeepsUse(w: World, k: nat, plan: StatePlan, target: Name)
    requires Linkable(w, target)
    requires !SettleMove(Pass(w, k, true), plan, target).0.running
    ensures var stopped := SettleMove(Pass(w, k, true), plan, target).0.w;
            SameNames(w, stopped) && InUse(stopped) == InUse(w)
  {
    SettleStops(w, k, plan, target);
    SameUse(w, SettleMove(Pass(w, k, true), plan, target).0.w, OwnClaim(w.name), MAX_MOVES);
  }

  lemma {:induction false} SameUse(w: World, w': World, name: Name, fuel: nat)
    requires SameNames(w, w')
    ensures StateInUse(w', name, fuel) == StateInUse(w, name, fuel)
    decreases fuel
  {
    if fuel > 0 && name in w.claims && w.claims[name].movedTo.Some? {
      SameUse(w, w', w.claims[name].movedTo.value, fuel - 1);
    }
  }

  /** Stopped at the mark, the move is refused by the next pass that works on it with its Pod gone. */
  lemma MarkedOnlyIsRefused(config: Config, w: World, w': World, writes: nat, target: Name)
    requires Safe(w) && Current(w, target) && MarkedOnly(w, w', target)
    requires WorksOn(w', target) && InUse(w').1 != target && writes > 0
    ensures var after := ReconcileMove(config, Pass(w', writes, true), true).0.w;
            IsMove(after.claims, target) && after.claims[target].move.value.phase == Refused
  {
    var r := Record(w', target);
    assert JobKey(r.id, StepOfPhase(r.phase)) !in w'.jobs;
  }
}
