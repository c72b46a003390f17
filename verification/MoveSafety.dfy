/** The writes of a move keep the invariants at every crash point. */
module MoveSafety {
  import opened Options
  import opened Cluster
  import opened Fence
  import opened Move
  import opened Invariants
  import opened Frames

  // ---- The claim the memory is on ----

  /** The chain is followed through claims moves of this Agent linked, to one that names no other. */
  lemma {:induction false} ChainEnd(w: World, name: Name, fuel: nat)
    requires Links(w.claims)
    requires name == OwnClaim(w.name) || OnChain(w, name)
    ensures var (plan, end) := StateInUse(w, name, fuel);
            && (!plan.hold && end in w.claims ==> w.claims[end].movedTo.None?)
            && (!plan.hold && end != OwnClaim(w.name) ==> OnChain(w, end))
            && (!plan.hold ==> plan.claim == (if end == OwnClaim(w.name) then None else Some(end)))
            && plan.requireStore == plan.claim.Some?
            && (plan.hold ==> plan.claim.None?)
    decreases fuel
  {
    if fuel > 0 && name in w.claims && w.claims[name].movedTo.Some? {
      assert Named(w.claims, name);
      ChainEnd(w, w.claims[name].movedTo.value, fuel - 1);
    }
  }

  /** The claim of a move the memory was moved to, still named by its source. */
  ghost predicate OnChain(w: World, name: Name) {
    && IsMove(w.claims, name)
    && w.claims[name].move.value.linkedAt.Some?
    && w.claims[name].move.value.unlinks == 0
    && w.claims[name].move.value.source in w.claims
    && w.claims[w.claims[name].move.value.source].movedTo == Some(name)
  }

  lemma InUseFacts(w: World)
    requires Links(w.claims)
    ensures var (plan, end) := InUse(w);
            && (!plan.hold && end in w.claims ==> w.claims[end].movedTo.None? && OwnClaim(w.name) in w.claims)
            && (!plan.hold && end != OwnClaim(w.name) ==> OnChain(w, end) && OwnClaim(w.name) in w.claims)
            && (!plan.hold ==> plan.claim == (if end == OwnClaim(w.name) then None else Some(end)))
            && plan.requireStore == plan.claim.Some?
            && (plan.hold ==> plan.claim.None?)
  {
    ChainEnd(w, OwnClaim(w.name), MAX_MOVES);
    if OwnClaim(w.name) !in w.claims {
      assert InUse(w) == (OWN_PLAN, OwnClaim(w.name));
    }
  }

  // ---- Writes that change one record ----

  /** A record's phase, digest, marks and Job counts may differ, and nothing else. */
  ghost predicate SameMove(r: MoveRecord, r': MoveRecord) {
    r' == r.(phase := r'.phase, digest := r'.digest, copyStarted := r'.copyStarted, checkStarted := r'.checkStarted,
             copyJobs := r'.copyJobs, checkJobs := r'.checkJobs)
  }

  ghost predicate RecordStep(w: World, w': World, target: Name) {
    && IsMove(w.claims, target)
    && w' == w.(claims := w'.claims, jobs := w'.jobs, copiers := w'.copiers)
    && w'.claims.Keys == w.claims.Keys
    && (forall c | c in w.claims && c != target :: w'.claims[c] == w.claims[c])
    && w'.claims[target] == w.claims[target].(move := w'.claims[target].move)
    && w'.claims[target].move.Some?
    && SameMove(w.claims[target].move.value, w'.claims[target].move.value)
  }

  lemma RecordStepKeepsRest(w: World, w': World, target: Name)
    requires Inv(w) && RecordStep(w, w', target)
    requires var r := w'.claims[target].move.value;
             && r.copyJobs <= (if r.copyStarted then 1 else 0)
             && r.checkJobs <= (if r.checkStarted then 1 else 0)
             && (r.unlinks == 1 ==> r.phase == Refused)
             && (r.linkedAt.Some? ==> r.phase in {Verified, Switched, Accepted, Refused})
    requires Copies(w'.name, w'.claims, w'.jobs, w'.copiers)
    ensures Inv(w')
  {
    RecordStepKeepsLinks(w, w', target);
    RecordStepKeepsClaims(w, w', target);
    RecordStepKeepsSeals(w, w', target);
    RecordStepKeepsNames(w, w', target);
  }

  lemma RecordStepKeepsNames(w: World, w': World, target: Name)
    requires NoMoveBesidePod(w.pod, w.claims) && NamedLast(w.name, w.agent, w.claims) && Mounted(w.name, w.sts, w.claims)
    requires RecordStep(w, w', target)
    ensures NoMoveBesidePod(w.pod, w'.claims) && NamedLast(w.name, w.agent, w'.claims) && Mounted(w.name, w.sts, w'.claims)
  {
    assert forall t :: IsMove(w'.claims, t) <==> IsMove(w.claims, t);
  }

  lemma RecordStepKeepsSeals(w: World, w': World, target: Name)
    requires Sealed(w.pod, w.claims) && Clocked(w) && RecordStep(w, w', target)
    ensures Sealed(w'.pod, w'.claims) && Clocked(w')
  {
    forall c | c in w'.claims
      ensures SealedClaim(w'.pod, w'.claims[c]) && ClaimClocked(w'.claims[c], w'.clock)
    {
      assert SealedClaim(w.pod, w.claims[c]) && ClaimClocked(w.claims[c], w.clock);
    }
  }

  lemma RecordStepKeepsClaims(w: World, w': World, target: Name)
    requires Recordings(w.name, w.claims) && RecordStep(w, w', target)
    requires var r := w'.claims[target].move.value;
             && r.copyJobs <= (if r.copyStarted then 1 else 0)
             && r.checkJobs <= (if r.checkStarted then 1 else 0)
             && (r.unlinks == 1 ==> r.phase == Refused)
             && (r.linkedAt.Some? ==> r.phase in {Verified, Switched, Accepted, Refused})
    ensures Recordings(w'.name, w'.claims)
  {
    forall t | IsMove(w'.claims, t)
      ensures Recorded(w'.name, w'.claims, t)
    {
      assert Recorded(w.name, w.claims, t);
    }
  }

  lemma RecordStepKeepsLinks(w: World, w': World, target: Name)
    requires Links(w.claims) && RecordStep(w, w', target)
    ensures Links(w'.claims)
  {
    forall c | c in w'.claims && w'.claims[c].movedTo.Some?
      ensures Named(w'.claims, c)
    {
      assert Named(w.claims, c);
    }
    forall t | IsMove(w'.claims, t)
      ensures StillNamed(w'.claims, w'.claims[t].move.value, t)
    {
      assert StillNamed(w.claims, w.claims[t].move.value, t);
    }
    forall t, u | IsMove(w'.claims, t) && IsMove(w'.claims, u) && t != u
      ensures UndoneBefore(w'.claims[t].move.value, w'.claims[u].move.value)
    {
      assert UndoneBefore(w.claims[t].move.value, w.claims[u].move.value);
    }
  }

  /** What a phase may follow, and what it then says of the two claims. */
  ghost predicate PhaseFollows(w: World, target: Name, phase: MovePhase)
    requires IsMove(w.claims, target)
  {
    var r := w.claims[target].move.value;
    match phase
    case Refused => true
    case Accepted => r.phase == Switched
    case Switched => r.phase == Verified && r.linkedAt.Some?
    case Verified =>
      && r.phase == Copied && r.linkedAt.None?
      && (Untouched(w.claims, r) ==> w.claims[target].content == Content(w.claims[r.source].content.state, 0))
    case Copied => r.phase == Created && r.linkedAt.None? && r.id !in w.copiers && !JobAt(w, r.id)
    case Created => false
  }

  ghost predicate JobAt(w: World, id: Name) {
    JobKey(id, Verify) in w.jobs
  }

  lemma PhaseKeepsInv(w: World, target: Name, phase: MovePhase, digest: Option<nat>)
    requires Inv(w) && IsMove(w.claims, target) && PhaseFollows(w, target, phase)
    requires w.claims[target].move.value.unlinks == 0 || phase == Refused
    ensures Inv(WithRecord(w, target, Record(w, target).(phase := phase, digest := digest)))
  {
    var w' := WithRecord(w, target, Record(w, target).(phase := phase, digest := digest));
    assert Recorded(w.name, w.claims, target);
    PhaseKeepsCopies(w, target, phase, digest);
    RecordStepKeepsRest(w, w', target);
  }

  /** A write to one record keeps the copies where it does for that record. */
  lemma RecordStepKeepsCopies(w: World, w': World, target: Name)
    requires Recordings(w.name, w.claims) && Copies(w.name, w.claims, w.jobs, w.copiers)
    requires RecordStep(w, w', target)
    requires forall k: JobKey :: k.id != w.claims[target].move.value.id ==>
               (k in w'.jobs <==> k in w.jobs) && (k in w.jobs ==> w'.jobs[k] == w.jobs[k])
    requires forall id: Name | id != w.claims[target].move.value.id :: id in w'.copiers <==> id in w.copiers
    requires CopyState(w'.claims, target, w'.jobs, w'.copiers)
    ensures Copies(w.name, w'.claims, w'.jobs, w'.copiers)
  {
    assert Recorded(w.name, w.claims, target);
    assert forall t :: IsMove(w'.claims, t) <==> IsMove(w.claims, t);
    forall t | IsMove(w'.claims, t)
      ensures CopyState(w'.claims, t, w'.jobs, w'.copiers)
    {
      if t != target {
        assert Recorded(w.name, w.claims, t) && CopyState(w.claims, t, w.jobs, w.copiers);
        assert w.claims[t].move.value.id != w.claims[target].move.value.id;
      }
    }
    forall k | k in w'.jobs
      ensures MoveOf(w.name, w'.claims, k.id)
    {
      assert k.id == w.claims[target].move.value.id || MoveOf(w.name, w.claims, k.id);
    }
    forall id | id in w'.copiers
      ensures MoveOf(w.name, w'.claims, id)
    {
      assert id == w.claims[target].move.value.id || MoveOf(w.name, w.claims, id);
    }
  }

  lemma PhaseKeepsCopies(w: World, target: Name, phase: MovePhase, digest: Option<nat>)
    requires Recordings(w.name, w.claims) && Copies(w.name, w.claims, w.jobs, w.copiers)
    requires IsMove(w.claims, target) && PhaseFollows(w, target, phase)
    ensures Copies(w.name, WithRecord(w, target, Record(w, target).(phase := phase, digest := digest)).claims, w.jobs, w.copiers)
  {
    var w' := WithRecord(w, target, Record(w, target).(phase := phase, digest := digest));
    assert Recorded(w.name, w.claims, target) && CopyState(w.claims, target, w.jobs, w.copiers);
    RecordStepKeepsCopies(w, w', target);
  }

  lemma MarkKeepsInv(w: World, target: Name, step: Step)
    requires Inv(w) && IsMove(w.claims, target)
    requires w.claims[target].move.value.unlinks == 0
    ensures Inv(WithMark(w, target, step))
  {
    var w' := WithMark(w, target, step);
    assert Recorded(w.name, w.claims, target);
    MarkKeepsCopies(w, target, step);
    RecordStepKeepsRest(w, w', target);
  }

  lemma MarkKeepsCopies(w: World, target: Name, step: Step)
    requires Recordings(w.name, w.claims) && Copies(w.name, w.claims, w.jobs, w.copiers) && IsMove(w.claims, target)
    ensures Copies(w.name, WithMark(w, target, step).claims, w.jobs, w.copiers)
  {
    assert Recorded(w.name, w.claims, target) && CopyState(w.claims, target, w.jobs, w.copiers);
    RecordStepKeepsCopies(w, WithMark(w, target, step), target);
  }

  /** A Job is created only right after its mark, once, for a step its phase asks for. */
  lemma JobCreatedKeepsInv(w: World, target: Name, step: Step)
    requires Inv(w) && IsMove(w.claims, target)
    requires var r := w.claims[target].move.value;
             && r.linkedAt.None?
             && (if step == Copy then r.copyStarted && r.copyJobs == 0 && r.phase == Created
                 else r.checkStarted && r.checkJobs == 0 && r.phase == Copied)
             && JobKey(r.id, step) !in w.jobs
    ensures Inv(WithJob(w, target, step))
  {
    var w' := WithJob(w, target, step);
    assert Recorded(w.name, w.claims, target);
    JobCreatedKeepsCopies(w, target, step);
    RecordStepKeepsRest(w, w', target);
  }

  lemma JobCreatedKeepsCopies(w: World, target: Name, step: Step)
    requires Recordings(w.name, w.claims) && Copies(w.name, w.claims, w.jobs, w.copiers) && IsMove(w.claims, target)
    requires var r := w.claims[target].move.value;
             && r.linkedAt.None?
             && (if step == Copy then r.copyStarted && r.phase == Created else r.checkStarted && r.phase == Copied)
             && JobKey(r.id, step) !in w.jobs
    ensures var w' := WithJob(w, target, step); Copies(w.name, w'.claims, w'.jobs, w'.copiers)
  {
    assert Recorded(w.name, w.claims, target) && CopyState(w.claims, target, w.jobs, w.copiers);
    RecordStepKeepsCopies(w, WithJob(w, target, step), target);
  }

  // ---- The claim a move moves to ----

  ghost predicate MayBegin(w: World, id: Name, source: Name) {
    && w.pod.None?
    && w.agent.Some? && w.agent.value.move == Some(id)
    && TargetClaim(w.name, id) !in w.claims
    && OwnClaim(w.name) in w.claims
    && source in w.claims && w.claims[source].movedTo.None? && DrainedCleanly(w.claims[source])
    && MayMount(w.claims, source)
  }

  lemma TargetKeepsInv(w: World, id: Name, source: Name)
    requires Inv(w) && MayBegin(w, id, source)
    ensures Inv(WithTarget(w, id, source))
  {
    var w' := WithTarget(w, id, source);
    TargetKeepsRecords(w, id, source);
    TargetKeepsLinks(w, id, source);
    TargetKeepsCopies(w, id, source);
    forall c | c in w'.claims
      ensures SealedClaim(w'.pod, w'.claims[c]) && ClaimClocked(w'.claims[c], w'.clock)
    {
      if c in w.claims {
        assert SealedClaim(w.pod, w.claims[c]) && ClaimClocked(w.claims[c], w.clock);
      }
    }
  }

  lemma TargetKeepsRecords(w: World, id: Name, source: Name)
    requires Recordings(w.name, w.claims) && Sealed(w.pod, w.claims) && Clocked(w) && MayBegin(w, id, source)
    ensures Recordings(w.name, WithTarget(w, id, source).claims)
  {
    var claims' := WithTarget(w, id, source).claims;
    assert SealedClaim(w.pod, w.claims[source]) && ClaimClocked(w.claims[source], w.clock);
    forall t | IsMove(claims', t)
      ensures Recorded(w.name, claims', t)
    {
      if t != TargetClaim(w.name, id) {
        assert Recorded(w.name, w.claims, t);
      }
    }
  }

  lemma TargetKeepsLinks(w: World, id: Name, source: Name)
    requires Recordings(w.name, w.claims) && Links(w.claims) && Clocked(w) && MayBegin(w, id, source)
    ensures Links(WithTarget(w, id, source).claims)
    ensures NamedLast(w.name, w.agent, WithTarget(w, id, source).claims)
  {
    var claims' := WithTarget(w, id, source).claims;
    var target := TargetClaim(w.name, id);
    forall c | c in claims' && claims'[c].movedTo.Some?
      ensures Named(claims', c)
    {
      assert Named(w.claims, c);
    }
    forall t | IsMove(claims', t)
      ensures StillNamed(claims', claims'[t].move.value, t)
    {
      if t != target {
        assert StillNamed(w.claims, w.claims[t].move.value, t);
      }
    }
    forall t, u | IsMove(claims', t) && IsMove(claims', u) && t != u
      ensures UndoneBefore(claims'[t].move.value, claims'[u].move.value)
    {
      if t != target {
        assert Recorded(w.name, w.claims, t) && StillNamed(w.claims, w.claims[t].move.value, t);
        if u != target {
          assert UndoneBefore(w.claims[t].move.value, w.claims[u].move.value);
        }
      }
    }
    forall c | IsMove(claims', c) && c != target && claims'[c].move.value.linkedAt.Some?
      ensures claims'[c].move.value.linkedAt.value < claims'[target].move.value.born
    {
      assert ClaimClocked(w.claims[c], w.clock);
    }
  }

  lemma TargetKeepsCopies(w: World, id: Name, source: Name)
    requires Recordings(w.name, w.claims) && Copies(w.name, w.claims, w.jobs, w.copiers) && MayBegin(w, id, source)
    ensures Copies(w.name, WithTarget(w, id, source).claims, w.jobs, w.copiers)
  {
    var claims' := WithTarget(w, id, source).claims;
    var target := TargetClaim(w.name, id);
    forall k | k in w.jobs
      ensures k.id != id && MoveOf(w.name, claims', k.id)
    {
      assert MoveOf(w.name, w.claims, k.id);
    }
    forall other | other in w.copiers
      ensures other != id && MoveOf(w.name, claims', other)
    {
      assert MoveOf(w.name, w.claims, other);
    }
    forall t | IsMove(claims', t)
      ensures CopyState(claims', t, w.jobs, w.copiers)
    {
      if t != target {
        assert Recorded(w.name, w.claims, t) && CopyState(w.claims, t, w.jobs, w.copiers);
      }
    }
  }

  // ---- The source's name for the target ----

  /** The name is put on for the first time, or taken off what was refused. */
  ghost predicate MayLink(w: World, target: Name, on: bool) {
    && IsMove(w.claims, target)
    && var r := w.claims[target].move.value;
    && r.source in w.claims
    && (if on then
          && r.linkedAt.None? && r.phase == Verified && w.claims[r.source].movedTo.None?
          && w.agent.Some? && w.agent.value.move == Some(r.id)
        else r.phase == Refused && w.claims[r.source].movedTo == Some(target))
  }

  /** What the write leaves: the source's name, the target's count of it, and the clock. */
  ghost predicate LinkStep(w: World, w': World, target: Name, source: Name, on: bool) {
    && IsMove(w.claims, target)
    && var r := w.claims[target].move.value;
    && r.source == source && source != target && source in w.claims
    && w' == w.(claims := w'.claims, clock := w.clock + 1)
    && w'.claims.Keys == w.claims.Keys
    && (forall c | c in w.claims && c != target && c != source :: w'.claims[c] == w.claims[c])
    && w'.claims[source] == w.claims[source].(movedTo := if on then Some(target) else None)
    && w'.claims[target] == w.claims[target].(move := w'.claims[target].move)
    && w'.claims[target].move == Some(
         if on then r.(links := r.links + 1, linkedAt := Some(w.clock)) else r.(unlinks := r.unlinks + 1))
  }

  lemma LinkKeepsInv(w: World, target: Name, on: bool)
    requires Inv(w) && MayLink(w, target, on)
    ensures Inv(WithLink(w, Record(w, target).source, target, on))
    ensures LinkStep(w, WithLink(w, Record(w, target).source, target, on), target, Record(w, target).source, on)
  {
    var source := Record(w, target).source;
    var w' := WithLink(w, source, target, on);
    assert Recorded(w.name, w.claims, target);
    assert LinkStep(w, w', target, source, on);
    if !on {
      assert Named(w.claims, source);
    }
    LinkKeepsRecords(w, w', target, source, on);
    LinkKeepsLinks(w, w', target, source, on);
    LinkKeepsCopies(w, w', target, source, on);
    LinkKeepsNames(w, w', target, source, on);
    LinkKeepsSeals(w, w', target, source, on);
  }

  lemma LinkKeepsSeals(w: World, w': World, target: Name, source: Name, on: bool)
    requires Sealed(w.pod, w.claims) && Clocked(w) && LinkStep(w, w', target, source, on)
    ensures Sealed(w'.pod, w'.claims) && Clocked(w')
  {
    forall c | c in w'.claims
      ensures SealedClaim(w'.pod, w'.claims[c]) && ClaimClocked(w'.claims[c], w'.clock)
    {
      assert SealedClaim(w.pod, w.claims[c]) && ClaimClocked(w.claims[c], w.clock);
    }
  }

  lemma LinkKeepsRecords(w: World, w': World, target: Name, source: Name, on: bool)
    requires Recordings(w.name, w.claims) && LinkStep(w, w', target, source, on)
    requires var r := w.claims[target].move.value;
             if on then r.linkedAt.None? && r.phase == Verified
             else r.phase == Refused && r.linkedAt.Some? && r.unlinks == 0
    ensures Recordings(w'.name, w'.claims)
  {
    forall t | IsMove(w'.claims, t)
      ensures Recorded(w'.name, w'.claims, t)
    {
      assert Recorded(w.name, w.claims, t);
    }
  }

  lemma LinkKeepsLinks(w: World, w': World, target: Name, source: Name, on: bool)
    requires Links(w.claims) && Clocked(w) && LinkStep(w, w', target, source, on)
    requires var r := w.claims[target].move.value;
             if on then r.linkedAt.None? && r.unlinks == 0 && w.claims[source].movedTo.None?
             else r.linkedAt.Some? && r.unlinks == 0 && w.claims[source].movedTo == Some(target)
    ensures Links(w'.claims)
  {
    LinkKeepsOrder(w, w', target, source, on);
    forall c | c in w'.claims && w'.claims[c].movedTo.Some?
      ensures Named(w'.claims, c)
    {
      if c != source {
        assert Named(w.claims, c);
      }
    }
    forall t | IsMove(w'.claims, t)
      ensures StillNamed(w'.claims, w'.claims[t].move.value, t)
    {
      assert StillNamed(w.claims, w.claims[t].move.value, t);
    }
  }

  lemma LinkKeepsOrder(w: World, w': World, target: Name, source: Name, on: bool)
    requires Links(w.claims) && Clocked(w) && LinkStep(w, w', target, source, on)
    requires w.claims[target].move.value.unlinks == 0
    ensures forall t, u | IsMove(w'.claims, t) && IsMove(w'.claims, u) && t != u ::
              UndoneBefore(w'.claims[t].move.value, w'.claims[u].move.value)
  {
    forall t, u | IsMove(w'.claims, t) && IsMove(w'.claims, u) && t != u
      ensures UndoneBefore(w'.claims[t].move.value, w'.claims[u].move.value)
    {
      assert UndoneBefore(w.claims[t].move.value, w.claims[u].move.value);
      assert ClaimClocked(w.claims[u], w.clock);
    }
  }

  lemma LinkKeepsCopies(w: World, w': World, target: Name, source: Name, on: bool)
    requires Recordings(w.name, w.claims) && Copies(w.name, w.claims, w.jobs, w.copiers)
    requires LinkStep(w, w', target, source, on)
    requires on ==> w.claims[target].move.value.phase == Verified
    requires !on ==> w.claims[target].move.value.linkedAt.Some?
    ensures Copies(w'.name, w'.claims, w'.jobs, w'.copiers)
  {
    var claims' := w'.claims;
    forall t | IsMove(claims', t)
      ensures CopyState(claims', t, w.jobs, w.copiers)
    {
      assert Recorded(w.name, w.claims, t) && CopyState(w.claims, t, w.jobs, w.copiers);
    }
    forall k | k in w.jobs
      ensures MoveOf(w.name, claims', k.id)
    {
      assert MoveOf(w.name, w.claims, k.id);
    }
    forall id | id in w.copiers
      ensures MoveOf(w.name, claims', id)
    {
      assert MoveOf(w.name, w.claims, id);
    }
  }

  lemma LinkKeepsNames(w: World, w': World, target: Name, source: Name, on: bool)
    requires NamedLast(w.name, w.agent, w.claims) && NoMoveBesidePod(w.pod, w.claims) && Mounted(w.name, w.sts, w.claims)
    requires LinkStep(w, w', target, source, on)
    requires on ==> w.agent.Some? && w.agent.value.move.Some? && TargetClaim(w.name, w.agent.value.move.value) == target
    ensures NamedLast(w.name, w.agent, w'.claims) && NoMoveBesidePod(w.pod, w'.claims) && Mounted(w.name, w.sts, w'.claims)
  {
    assert forall t :: IsMove(w'.claims, t) <==> IsMove(w.claims, t);
  }
}
