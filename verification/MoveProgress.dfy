/** A pass only ever takes the move it works on forward, and every write it makes is one the move had
    left to make. */
module MoveProgress {
  import opened Options
  import opened Cluster
  import opened Fence
  import opened Move
  import opened Invariants
  import opened MoveSafety
  import opened Progress
  import opened RunSafety

  // ---- Single writes ----

  lemma PhaseWrites(pass: Pass, target: Name, phase: MovePhase, digest: Option<nat>)
    requires IsMove(pass.w.claims, target)
    requires var r := pass.w.claims[target].move.value;
             && r.phase != phase && Reaches(r.phase, phase)
             && (digest == r.digest || (r.phase == Created && phase != Created))
    ensures Moved(pass, Put(pass, WithRecord(pass.w, target, Record(pass.w, target).(phase := phase, digest := digest))), target)
  {
    Writes(pass, WithRecord(pass.w, target, Record(pass.w, target).(phase := phase, digest := digest)), target);
  }

  lemma RefusalWrites(pass: Pass, target: Name)
    requires IsMove(pass.w.claims, target) && !Final(pass.w.claims[target].move.value.phase)
    ensures Moved(pass, Put(pass, WithPhase(pass.w, target, Refused)), target)
  {
    PhaseWrites(pass, target, Refused, Record(pass.w, target).digest);
  }

  /** The source is another claim, and it names the target, or the target was never linked. */
  ghost predicate Linkable(w: World, target: Name) {
    && IsMove(w.claims, target)
    && var r := w.claims[target].move.value;
    && r.source != target && r.source in w.claims
    && (w.claims[r.source].movedTo == Some(target) || (r.linkedAt.None? && r.links == 0))
  }

  lemma LinkWrites(pass: Pass, target: Name)
    requires Linkable(pass.w, target)
    ensures Moved(pass, LinkMove(pass, Record(pass.w, target).source, target, true), target)
  {
    var source := Record(pass.w, target).source;
    if pass.w.claims[source].movedTo == Some(target) {
      Stays(pass, pass, target);
    } else {
      Writes(pass, WithLink(pass.w, source, target, true), target);
    }
  }

  lemma UnlinkClimbs(w: World, target: Name)
    requires Linkable(w, target) && w.claims[target].move.value.unlinks == 0
    ensures var w' := WithLink(w, Record(w, target).source, target, false);
            RecordClimbs(w, w', target) && Work(w'.claims[target].move.value) < Work(w.claims[target].move.value)
  {
  }

  lemma UnlinkWrites(pass: Pass, target: Name)
    requires Linkable(pass.w, target) && pass.w.claims[target].move.value.unlinks == 0
    ensures Moved(pass, LinkMove(pass, Record(pass.w, target).source, target, false), target)
  {
    var source := Record(pass.w, target).source;
    if pass.w.claims[source].movedTo.None? {
      Stays(pass, pass, target);
    } else {
      UnlinkClimbs(pass.w, target);
      Writes(pass, WithLink(pass.w, source, target, false), target);
    }
  }

  // ---- The steps ----

  lemma EnsureJobWrites(pass: Pass, target: Name, step: Step)
    requires IsMove(pass.w.claims, target)
    requires var r := pass.w.claims[target].move.value;
             if step == Copy then r.copyJobs <= (if r.copyStarted then 1 else 0) else r.checkJobs <= (if r.checkStarted then 1 else 0)
    ensures Moved(pass, EnsureJob(pass, target, step).0, target)
  {
    var r := Record(pass.w, target);
    if JobKey(r.id, step) in pass.w.jobs || (if step == Copy then r.copyStarted else r.checkStarted) {
      Stays(pass, EnsureJob(pass, target, step).0, target);
    } else {
      MarkWrites(pass, target, step);
      var marked := Put(pass, WithMark(pass.w, target, step));
      if marked.running {
        JobWrites(marked, target, step);
        MovedOn(pass, marked, Put(marked, WithJob(marked.w, target, step)), target);
      }
    }
  }

  lemma MarkWrites(pass: Pass, target: Name, step: Step)
    requires IsMove(pass.w.claims, target)
    requires var r := pass.w.claims[target].move.value; if step == Copy then !r.copyStarted else !r.checkStarted
    ensures Moved(pass, Put(pass, WithMark(pass.w, target, step)), target)
  {
    Writes(pass, WithMark(pass.w, target, step), target);
  }

  lemma JobWrites(pass: Pass, target: Name, step: Step)
    requires IsMove(pass.w.claims, target)
    requires var r := pass.w.claims[target].move.value; if step == Copy then r.copyJobs == 0 else r.checkJobs == 0
    ensures Moved(pass, Put(pass, WithJob(pass.w, target, step)), target)
  {
    Writes(pass, WithJob(pass.w, target, step), target);
  }

  lemma RunCopyWrites(pass: Pass, target: Name)
    requires Safe(pass.w) && IsMove(pass.w.claims, target) && pass.w.claims[target].move.value.phase == Created
    ensures Moved(pass, RunCopy(pass, target), target)
  {
    RecordOf(pass.w, target);
    EnsureJobWrites(pass, target, Copy);
    var outcome := EnsureJob(pass, target, Copy).1;
    RefusalWrites(pass, target);
    if outcome.Ended? && outcome.report.source.Some? {
      PhaseWrites(pass, target, Copied, outcome.report.source);
    }
  }

  lemma RunVerifyWrites(pass: Pass, target: Name)
    requires Safe(pass.w) && IsMove(pass.w.claims, target) && pass.w.claims[target].move.value.phase == Copied
    ensures Moved(pass, RunVerify(pass, target), target)
  {
    RecordOf(pass.w, target);
    EnsureJobWrites(pass, target, Verify);
    RefusalWrites(pass, target);
    PhaseWrites(pass, target, Verified, Record(pass.w, target).digest);
  }

  lemma SettlePodWrites(pass: Pass, plan: StatePlan, target: Name)
    requires Linkable(pass.w, target) && pass.w.claims[target].move.value.unlinks == 0
    requires pass.w.claims[target].move.value.phase == Switched
    ensures Moved(pass, SettlePod(pass, plan, target).0, target)
  {
    Stays(pass, pass, target);
    RefusalWrites(pass, target);
    PhaseWrites(pass, target, Accepted, Record(pass.w, target).digest);
    var refused := Put(pass, WithPhase(pass.w, target, Refused));
    if refused.running {
      UnlinkWrites(refused, target);
      MovedOn(pass, refused, RestoreSource(refused, target).0, target);
    }
  }

  lemma SettleMoveWrites(pass: Pass, plan: StatePlan, target: Name)
    requires Linkable(pass.w, target) && pass.w.claims[target].move.value.unlinks == 0
    ensures Moved(pass, SettleMove(pass, plan, target).0, target)
  {
    match Record(pass.w, target).phase {
      case Verified =>
        PhaseWrites(pass, target, Switched, Record(pass.w, target).digest);
        var switched := Put(pass, WithPhase(pass.w, target, Switched));
        if switched.running {
          SettlePodWrites(switched, plan, target);
          MovedOn(pass, switched, SettlePod(switched, plan, target).0, target);
        }
      case Switched => SettlePodWrites(pass, plan, target);
      case Accepted => Stays(pass, pass, target);
      case Refused => UnlinkWrites(pass, target);
      case _ => RefusalWrites(pass, target);
    }
  }

  lemma SwitchMoveWrites(pass: Pass, target: Name)
    requires Safe(pass.w) && Current(pass.w, target) && pass.w.claims[target].move.value.phase == Verified
    ensures Moved(pass, SwitchMove(pass, target).0, target)
  {
    RecordOf(pass.w, target);
    NamedOrFree(pass.w, target);
    var source := Record(pass.w, target).source;
    LinkWrites(pass, target);
    var linked := LinkMove(pass, source, target, true);
    if linked.running {
      assert linked.w == pass.w || linked.w == WithLink(pass.w, source, target, true);
      SettleMoveWrites(linked, StatePlan(Some(target), true, false), target);
      MovedOn(pass, linked, SwitchMove(pass, target).0, target);
    }
  }

  lemma AdvanceMoveWrites(pass: Pass, plan: StatePlan, target: Name, podGone: bool)
    requires Safe(pass.w) && Current(pass.w, target)
    ensures Moved(pass, AdvanceMove(pass, plan, target, podGone).0, target)
  {
    var record := Record(pass.w, target);
    if record.phase in {Refused, Switched, Accepted} || !podGone {
      Stays(pass, pass, target);
    } else if !SourceUnchanged(pass.w, record) {
      RefusalWrites(pass, target);
    } else {
      match record.phase {
        case Created => RunCopyWrites(pass, target);
        case Copied => RunVerifyWrites(pass, target);
        case _ => SwitchMoveWrites(pass, target);
      }
    }
  }
}
