/**
  The move of an agent's memory to a new claim: the claim the memory is on, and each step of a move
  decided again from the objects (ADR 0065 of the repository). Functions over a World; the
  reconciler's methods are proved to do what these say.
 */
module Move {
  import opened Options
  import opened Cluster
  import opened Fence

  /** What the workload is built with for the agent's state. No claim is the StatefulSet's own. */
  datatype StatePlan = StatePlan(claim: Option<Name>, requireStore: bool, hold: bool)

  const OWN_PLAN := StatePlan(None, false, false)

  /** The chain of moves is followed through at most this many claims. */
  const MAX_MOVES: nat := 64

  // ---- The claim the memory is on ----

  /** Follows the chain from `name` through at most `fuel` claims. */
  function StateInUse(w: World, name: Name, fuel: nat): (StatePlan, Name)
    decreases fuel
  {
    if fuel == 0 then (OWN_PLAN.(hold := true), name)
    else if name !in w.claims && name == OwnClaim(w.name) then (OWN_PLAN, name)
    else if name != OwnClaim(w.name) && !(name in w.claims && Ours(w.claims[name])) then
      (OWN_PLAN.(hold := true), name)
    else
      match w.claims[name].movedTo
      case Some(next) => StateInUse(w, next, fuel - 1)
      case None =>
        if name == OwnClaim(w.name) then (OWN_PLAN, name) else (StatePlan(Some(name), true, false), name)
  }

  function InUse(w: World): (StatePlan, Name) {
    StateInUse(w, OwnClaim(w.name), MAX_MOVES)
  }

  predicate JobRunning(w: World) {
    exists k | k in w.jobs :: w.jobs[k].end.None?
  }

  predicate DrainedCleanly(claim: Claim) {
    && claim.lastWriter.Some?
    && claim.lastWriter.value.state == WriterStopped
    && claim.lastWriter.value.exitCode == Some(0)
  }

  // ---- Writes to a move's record ----

  function Record(w: World, target: Name): MoveRecord
    requires target in w.claims && Ours(w.claims[target])
  {
    w.claims[target].move.value
  }

  function WithRecord(w: World, target: Name, record: MoveRecord): World
    requires target in w.claims
  {
    w.(claims := w.claims[target := w.claims[target].(move := Some(record))])
  }

  function WithPhase(w: World, target: Name, phase: MovePhase): World
    requires target in w.claims && Ours(w.claims[target])
  {
    WithRecord(w, target, Record(w, target).(phase := phase))
  }

  function WithTarget(w: World, id: Name, source: Name): World
    requires source in w.claims
  {
    var from := w.claims[source];
    var record := MoveRecord(id, Created, source, from.uid, from.lastWriter, None, false, false, w.clock, None, 0, 0, 0, 0);
    w.(claims := w.claims[TargetClaim(w.name, id) :=
         Claim(w.clock, w.clock, true, None, None, Some(record), Content(0, 0), Content(0, 0), None)],
       clock := w.clock + 1)
  }

  function WithMark(w: World, target: Name, step: Step): World
    requires target in w.claims && Ours(w.claims[target])
  {
    var record := Record(w, target);
    WithRecord(w, target, if step == Copy then record.(copyStarted := true) else record.(checkStarted := true))
  }

  function WithJob(w: World, target: Name, step: Step): World
    requires target in w.claims && Ours(w.claims[target])
  {
    var record := Record(w, target);
    var counted := WithRecord(w, target,
      if step == Copy then record.(copyJobs := record.copyJobs + 1) else record.(checkJobs := record.checkJobs + 1));
    counted.(jobs := w.jobs[JobKey(record.id, step) := Job(None)],
             copiers := if step == Copy then w.copiers + {record.id} else w.copiers)
  }

  /** The source's name for the target, put on or taken off. */
  function WithLink(w: World, source: Name, target: Name, on: bool): World
    requires source in w.claims && target in w.claims && Ours(w.claims[target])
  {
    var record := Record(w, target);
    var counted :=
      if on then record.(links := record.links + 1,
                         linkedAt := if record.linkedAt.Some? then record.linkedAt else Some(w.clock))
      else record.(unlinks := record.unlinks + 1);
    var claims := w.claims[target := w.claims[target].(move := Some(counted))];
    w.(claims := claims[source := claims[source].(movedTo := if on then Some(target) else None)],
       clock := w.clock + 1)
  }

  /** An absent source is an error of the pass; a name that already stands is not written again. */
  function LinkMove(pass: Pass, source: Name, target: Name, on: bool): Pass
    requires target in pass.w.claims && Ours(pass.w.claims[target])
  {
    if source !in pass.w.claims then pass.(running := false)
    else if pass.w.claims[source].movedTo == (if on then Some(target) else None) then pass
    else Put(pass, WithLink(pass.w, source, target, on))
  }

  // ---- The steps ----

  function BeginMove(config: Config, pass: Pass, plan: StatePlan, id: Name, inUse: Name, podGone: bool): (Pass, StatePlan) {
    var held := plan.(hold := true);
    if !config.copyImage then (pass, held)
    else if pass.w.sts.Some? && !pass.w.sts.value.workspaceTemplate then (pass, held)
    else if !podGone then (pass, held)
    else if inUse !in pass.w.claims then (pass, held)
    else if !DrainedCleanly(pass.w.claims[inUse]) then (pass, held)
    else (Put(pass, WithTarget(pass.w, id, inUse)), held)
  }

  predicate SourceUnchanged(w: World, record: MoveRecord) {
    && record.source in w.claims
    && w.claims[record.source].uid == record.sourceUID
    && w.claims[record.source].lastWriter == record.sourceWriter
  }

  /** The outcome of a move's Job: running, ended, or not to be had. */
  datatype Outcome = StillRunning | Ended(report: Report) | Refusal

  /** Marks the target and creates the Job where neither was done, and reads the Job otherwise. A
      Job gone after the mark is one whose work is unknown. */
  function EnsureJob(pass: Pass, target: Name, step: Step): (Pass, Outcome)
    requires target in pass.w.claims && Ours(pass.w.claims[target])
  {
    var record := Record(pass.w, target);
    var key := JobKey(record.id, step);
    if key in pass.w.jobs then
      (pass, match pass.w.jobs[key].end
             case None => StillRunning
             case Some(FailedJob) => Refusal
             case Some(Exited0(report)) => Ended(report))
    else if (if step == Copy then record.copyStarted else record.checkStarted) then (pass, Refusal)
    else
      var marked := Put(pass, WithMark(pass.w, target, step));
      if !marked.running then (marked, StillRunning)
      else (Put(marked, WithJob(marked.w, target, step)), StillRunning)
  }

  function RunCopy(pass: Pass, target: Name): Pass
    requires target in pass.w.claims && Ours(pass.w.claims[target])
  {
    var (next, outcome) := EnsureJob(pass, target, Copy);
    match outcome
    case StillRunning => next
    case Refusal => Put(pass, WithPhase(pass.w, target, Refused))
    case Ended(report) =>
      if report.source.None? then Put(pass, WithPhase(pass.w, target, Refused))
      else Put(pass, WithRecord(pass.w, target, Record(pass.w, target).(phase := Copied, digest := report.source)))
  }

  /** The source's digest now, its digest when the copy began, and the copy's are one value, and the
      target holds nothing else. */
  predicate Verifies(record: MoveRecord, report: Report) {
    && report.source.Some? && report.target.Some? && report.extra.Some?
    && report.source == record.digest
    && report.target == report.source
    && report.extra.value == 0
  }

  function RunVerify(pass: Pass, target: Name): Pass
    requires target in pass.w.claims && Ours(pass.w.claims[target])
  {
    var (next, outcome) := EnsureJob(pass, target, Verify);
    match outcome
    case StillRunning => next
    case Refusal => Put(pass, WithPhase(pass.w, target, Refused))
    case Ended(report) =>
      Put(pass, WithPhase(pass.w, target, if Verifies(Record(pass.w, target), report) then Verified else Refused))
  }

  predicate ExitedNonZero(p: Pod) {
    && AGENT_CONTAINER in p.statuses
    && var s := p.statuses[AGENT_CONTAINER];
    && ((s.state.Terminated? && s.state.exitCode != 0) || (s.last.Terminated? && s.last.exitCode != 0))
  }

  predicate PodReady(p: Pod) {
    p.readyCondition && AGENT_CONTAINER in p.statuses && p.statuses[AGENT_CONTAINER].ready
  }

  function RestoreSource(pass: Pass, target: Name): (Pass, StatePlan)
    requires target in pass.w.claims && Ours(pass.w.claims[target])
  {
    var source := Record(pass.w, target).source;
    (LinkMove(pass, source, target, false), StatePlan(Some(source), source != OwnClaim(pass.w.name), true))
  }

  /** Reads the first Pod on the copy: serving accepts the move, an exit other than 0 refuses it. */
  function SettlePod(pass: Pass, plan: StatePlan, target: Name): (Pass, StatePlan)
    requires target in pass.w.claims && Ours(pass.w.claims[target])
  {
    if pass.w.pod.None? || pass.w.pod.value.claim != target then (pass, plan)
    else if ExitedNonZero(pass.w.pod.value) then
      var refused := Put(pass, WithPhase(pass.w, target, Refused));
      if !refused.running then (refused, plan) else RestoreSource(refused, target)
    else if !PodReady(pass.w.pod.value) then (pass, plan)
    else (Put(pass, WithPhase(pass.w, target, Accepted)), plan)
  }

  function SettleMove(pass: Pass, plan: StatePlan, target: Name): (Pass, StatePlan)
    requires target in pass.w.claims && Ours(pass.w.claims[target])
  {
    match Record(pass.w, target).phase
    case Verified =>
      var switched := Put(pass, WithPhase(pass.w, target, Switched));
      if !switched.running then (switched, plan) else SettlePod(switched, plan, target)
    case Switched => SettlePod(pass, plan, target)
    case Accepted => (pass, plan)
    case Refused => RestoreSource(pass, target)
    case _ => (Put(pass, WithPhase(pass.w, target, Refused)), OWN_PLAN.(hold := true))
  }

  /** The name on the source is written first, then the phase. */
  function SwitchMove(pass: Pass, target: Name): (Pass, StatePlan)
    requires target in pass.w.claims && Ours(pass.w.claims[target])
  {
    var linked := LinkMove(pass, Record(pass.w, target).source, target, true);
    if !linked.running then (linked, OWN_PLAN.(hold := true))
    else SettleMove(linked, StatePlan(Some(target), true, false), target)
  }

  function AdvanceMove(pass: Pass, plan: StatePlan, target: Name, podGone: bool): (Pass, StatePlan)
    requires target in pass.w.claims && Ours(pass.w.claims[target])
  {
    var held := plan.(hold := true);
    var record := Record(pass.w, target);
    if record.phase in {Refused, Switched, Accepted} then (pass, held)
    else if !podGone then (pass, held)
    else if !SourceUnchanged(pass.w, record) then (Put(pass, WithPhase(pass.w, target, Refused)), held)
    else
      match record.phase
      case Created => (RunCopy(pass, target), held)
      case Copied => (RunVerify(pass, target), held)
      case _ => SwitchMove(pass, target)
  }

  function ReconcileMove(config: Config, pass: Pass, podGone: bool): (Pass, StatePlan) {
    var (found, inUse) := InUse(pass.w);
    if found.hold then (pass, found)
    else
      var plan := found.(hold := JobRunning(pass.w));
      if pass.w.agent.None? || pass.w.agent.value.move.None? then (pass, plan)
      else
        var id := pass.w.agent.value.move.value;
        var target := TargetClaim(pass.w.name, id);
        if target !in pass.w.claims then BeginMove(config, pass, plan, id, inUse, podGone)
        else if !Ours(pass.w.claims[target]) || Record(pass.w, target).id != id then (pass, plan.(hold := true))
        else if inUse == target then SettleMove(pass, plan, target)
        else AdvanceMove(pass, plan, target, podGone)
  }
}
