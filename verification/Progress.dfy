/** How a move's record may change: forward only, each of its one-time writes counted down. */
module Progress {
  import opened Options
  import opened Cluster
  import opened Fence
  import opened Move
  import opened Invariants

  function Rank(phase: MovePhase): nat {
    match phase
    case Created => 0
    case Copied => 1
    case Verified => 2
    case Switched => 3
    case Accepted => 4
    case Refused => 5
  }

  predicate Final(phase: MovePhase) {
    phase == Accepted || phase == Refused
  }

  /** The phases climb, any phase but the last may be refused, and both ends are final. */
  predicate Reaches(phase: MovePhase, phase': MovePhase) {
    phase == phase' || (!Final(phase) && Rank(phase) < Rank(phase'))
  }

  /** What began a move is never rewritten, what marked its progress is never taken back, and the
      copy's digest is written with the phase that follows the copy. */
  predicate Climbs(r: MoveRecord, r': MoveRecord) {
    && r' == r.(phase := r'.phase, digest := r'.digest, copyStarted := r'.copyStarted, checkStarted := r'.checkStarted,
                linkedAt := r'.linkedAt, links := r'.links, unlinks := r'.unlinks, copyJobs := r'.copyJobs, checkJobs := r'.checkJobs)
    && Reaches(r.phase, r'.phase)
    && (r.copyStarted ==> r'.copyStarted) && (r.checkStarted ==> r'.checkStarted)
    && (r.linkedAt.Some? ==> r'.linkedAt == r.linkedAt)
    && r.links <= r'.links && r.unlinks <= r'.unlinks && r.copyJobs <= r'.copyJobs && r.checkJobs <= r'.checkJobs
    && (r.phase != Created || r'.phase == Created ==> r'.digest == r.digest)
  }

  /** The durable writes a move may still make. */
  function Work(r: MoveRecord): nat {
    (if Final(r.phase) then 0 else 4 - Rank(r.phase))
    + (if r.links == 0 then 1 else 0) + (if r.unlinks == 0 then 1 else 0)
    + (if r.copyStarted then 0 else 1) + (if r.checkStarted then 0 else 1)
    + (if r.copyJobs == 0 then 1 else 0) + (if r.checkJobs == 0 then 1 else 0)
  }

  /** No claim goes, none stops being a move's, and every move's record climbs. */
  ghost predicate MovesClimb(w: World, w': World) {
    && w.claims.Keys <= w'.claims.Keys
    && forall c | c in w.claims ::
         && (Ours(w'.claims[c]) <==> Ours(w.claims[c]))
         && (Ours(w.claims[c]) ==> Climbs(w.claims[c].move.value, w'.claims[c].move.value))
  }

  lemma MovesClimbOn(w: World, w1: World, w2: World)
    requires MovesClimb(w, w1) && MovesClimb(w1, w2)
    ensures MovesClimb(w, w2)
  {
    forall c | c in w.claims
      ensures Ours(w2.claims[c]) <==> Ours(w.claims[c])
      ensures Ours(w.claims[c]) ==> Climbs(w.claims[c].move.value, w2.claims[c].move.value)
    {
      assert Ours(w1.claims[c]) <==> Ours(w.claims[c]);
    }
  }

  /** The move the spec names. */
  ghost predicate Current(w: World, target: Name) {
    && IsMove(w.claims, target)
    && w.agent.Some? && w.agent.value.move == Some(w.claims[target].move.value.id)
  }

  // ---- What the writes of a pass do to one move ----

  /** Only the target's record climbs; any claim's name for where the memory moved may differ. */
  ghost predicate RecordClimbs(w: World, w': World, target: Name) {
    && w' == w.(claims := w'.claims, jobs := w'.jobs, copiers := w'.copiers, clock := w'.clock)
    && w'.claims.Keys == w.claims.Keys
    && (forall c | c in w.claims && c != target :: w'.claims[c] == w.claims[c].(movedTo := w'.claims[c].movedTo))
    && IsMove(w.claims, target) && IsMove(w'.claims, target)
    && w'.claims[target] == w.claims[target].(move := w'.claims[target].move, movedTo := w'.claims[target].movedTo)
    && Climbs(w.claims[target].move.value, w'.claims[target].move.value)
  }

  /** And each write is counted off the target's work. */
  ghost predicate Advances(pass: Pass, next: Pass, target: Name) {
    && RecordClimbs(pass.w, next.w, target)
    && next.left <= pass.left
    && pass.left - next.left <= Work(pass.w.claims[target].move.value) - Work(next.w.claims[target].move.value)
  }

  /** Behind a quantifier, so that a proof unfolds it only where it opens it. */
  ghost predicate Moved(pass: Pass, next: Pass, target: Name) {
    forall shown: bool :: MovedWhen(shown, pass, next, target)
  }

  ghost predicate MovedWhen(shown: bool, pass: Pass, next: Pass, target: Name) {
    shown ==> Advances(pass, next, target)
  }

  lemma OpenMoved(pass: Pass, next: Pass, target: Name)
    requires Moved(pass, next, target)
    ensures Advances(pass, next, target)
  {
    assert MovedWhen(true, pass, next, target);
  }

  lemma Stays(pass: Pass, next: Pass, target: Name)
    requires IsMove(pass.w.claims, target) && next.w == pass.w && next.left == pass.left
    ensures Moved(pass, next, target)
  {
  }

  lemma Writes(pass: Pass, w': World, target: Name)
    requires RecordClimbs(pass.w, w', target)
    requires Work(w'.claims[target].move.value) < Work(pass.w.claims[target].move.value)
    ensures Moved(pass, Put(pass, w'), target)
  {
    assert Advances(pass, Put(pass, w'), target);
  }

  lemma MovedOn(pass: Pass, mid: Pass, next: Pass, target: Name)
    requires Moved(pass, mid, target) && Moved(mid, next, target)
    ensures Moved(pass, next, target)
  {
    OpenMoved(pass, mid, target);
    OpenMoved(mid, next, target);
    assert Advances(pass, next, target);
  }
}
