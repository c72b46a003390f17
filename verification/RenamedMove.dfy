/** Why a move's id must not be named again after a later move switched: the source's name for where
    the memory moved is overwritten, and what was written since is left behind. */
module RenamedMove {
  import opened Options
  import opened Cluster
  import opened Fence
  import opened Move
  import opened Workload
  import opened Invariants
  import opened Chain
  import opened SampleRuns

  function Naming(w: World, id: Name): World
    requires w.agent.Some?
  {
    w.(agent := Some(w.agent.value.(move := Some(id))))
  }

  /** The first move was verified, and left; a second, begun from the same claim, switched; and the agent
      ran on its claim, wrote there and drained. */
  function Before(): World {
    Wrote(Naming(Stalled(), "2"), "2")
  }

  /** And the spec names the first move again. */
  function Renamed(): World {
    Naming(Before(), "1")
  }

  lemma SecondIsNamed()
    ensures UserStep(Stalled(), Naming(Stalled(), "2"))
  {
    ClaimNames();
    assert SECOND !in Stalled().claims;
  }

  lemma SecondCanMove()
    ensures var w := Naming(Stalled(), "2"); CanMove(w, "2") && AllEnded(w.jobs) && w.nodes == NODES
  {
    ClaimNames();
    assert SECOND !in Stalled().claims && "1" != "2";
  }

  lemma BeforeIsReached()
    ensures Reachable(Before())
  {
    var w := Naming(Stalled(), "2");
    StalledIsReached();
    SecondIsNamed();
    Extend(Stalled(), w);
    SecondCanMove();
    VerifiedIsReached(w, "2");
    WroteIsReached(w, "2");
  }

  lemma FirstIs()
    ensures var w := Stalled();
            && OWN in w.claims && IsMove(w.claims, FIRST) && FIRST != SECOND && FIRST != OWN && w.claims[FIRST].movedTo.None?
            && w.claims[FIRST].content == Content(0, 0)
            && w.claims[FIRST].move.value.id == "1" && w.claims[FIRST].move.value.phase == Verified
            && w.claims[FIRST].move.value.source == OWN && w.claims[FIRST].move.value.linkedAt.None?
            && w.claims[FIRST].move.value.born < w.clock
            && SourceUnchanged(w, w.claims[FIRST].move.value)
  {
    ClaimNames();
  }

  /** What the state's claims say of the two moves, both begun from the StatefulSet's own claim. */
  lemma ClaimsAre()
    ensures var w := Before();
            && IsMove(w.claims, FIRST) && IsMove(w.claims, SECOND) && OWN in w.claims
            && w.claims[FIRST].move.value.id == "1" && w.claims[FIRST].move.value.phase == Verified
            && w.claims[FIRST].move.value.source == OWN && w.claims[FIRST].move.value.linkedAt.None?
            && w.claims[FIRST].movedTo.None? && w.claims[FIRST].content == Content(0, 0)
            && SourceUnchanged(w, w.claims[FIRST].move.value)
            && w.claims[SECOND].move.value.linkedAt == Some(w.claims[SECOND].move.value.born + 1)
            && w.claims[FIRST].move.value.born < w.claims[SECOND].move.value.born
            && w.claims[SECOND].movedTo.None? && w.claims[SECOND].content == WRITTEN
            && w.claims[OWN].movedTo == Some(SECOND)
  {
    ClaimNames();
    FirstIs();
    WroteClaims(Naming(Stalled(), "2"));
  }

  lemma WroteClaims(w: World)
    requires OWN in w.claims && IsMove(w.claims, FIRST) && w.agent.Some?
    ensures var v := Wrote(w, "2");
            && v.claims.Keys == w.claims.Keys + {SECOND} && v.claims[FIRST] == w.claims[FIRST]
            && v.claims[OWN] == w.claims[OWN].(movedTo := Some(SECOND))
            && IsMove(v.claims, SECOND) && v.claims[SECOND].movedTo.None? && v.claims[SECOND].content == WRITTEN
            && v.claims[SECOND].move.value.born == w.clock && v.claims[SECOND].move.value.linkedAt == Some(w.clock + 1)
  {
    ClaimNames();
  }

  lemma StateIs()
    ensures var w := Before();
            && w.name == "a" && w.pod.None? && w.agent.Some? && AllEnded(w.jobs)
            && w.agent.value.fenced && !w.agent.value.deleting && !w.agent.value.heldStopped
            && w.sts == Some(StatefulSet(1, false, true, Some(SECOND), true))
  {
    ClaimNames();
  }

  /** The claims as the second move left them. */
  ghost predicate Chained(w: World) {
    && w.name == "a" && IsMove(w.claims, FIRST) && IsMove(w.claims, SECOND) && OWN in w.claims
    && w.claims[FIRST].move.value.phase == Verified && w.claims[FIRST].move.value.source == OWN
    && w.claims[OWN].movedTo == Some(SECOND) && w.claims[SECOND].movedTo.None?
  }

  lemma NamingBreaks(w: World)
    requires Safe(w) && Chained(w) && w.agent.Some? && w.pod.None?
    requires w.claims[FIRST].move.value.id == "1" && w.claims[SECOND].move.value.linkedAt.Some?
    requires w.claims[FIRST].move.value.born < w.claims[SECOND].move.value.linkedAt.value
    ensures !MayName(w, "1")
    ensures var w' := Naming(w, "1");
            && Fenced(w'.agent, w'.sts, w'.pod, w'.nodes, w'.live) && Clocked(w') && Sealed(w'.pod, w'.claims)
            && Recordings(w'.name, w'.claims) && NoMoveBesidePod(w'.pod, w'.claims) && Links(w'.claims)
            && Copies(w'.name, w'.claims, w'.jobs, w'.copiers) && Mounted(w'.name, w'.sts, w'.claims)
            && !NamedLast(w'.name, w'.agent, w'.claims)
  {
    Open(w);
    ClaimNames();
  }

  /** A run ends one step before it, and that step is against the naming rule and nothing else: of the
      invariants, only the one the rule keeps does not hold. */
  lemma OnlyTheNamingIsBroken()
    ensures Reachable(Before()) && Renamed() == Naming(Before(), "1") && !MayName(Before(), "1")
    ensures var w := Renamed();
            && Fenced(w.agent, w.sts, w.pod, w.nodes, w.live) && Clocked(w) && Sealed(w.pod, w.claims)
            && Recordings(w.name, w.claims) && NoMoveBesidePod(w.pod, w.claims) && Links(w.claims)
            && Copies(w.name, w.claims, w.jobs, w.copiers) && Mounted(w.name, w.sts, w.claims)
            && !NamedLast(w.name, w.agent, w.claims)
  {
    BeforeIsReached();
    ReachedIsSafe(Before());
    ClaimsAre();
    StateIs();
    NamingBreaks(Before());
  }

  lemma TakesOver(w: World)
    requires Recordings(w.name, w.claims) && Links(w.claims) && Chained(w)
    ensures Overwrites(w, FIRST) && ChainOf(w, [OWN, SECOND])
    ensures InUse(w) == (StatePlan(Some(SECOND), true, false), SECOND) && LeftBehind(w, OWN)
    ensures InUse(WithLink(w, OWN, FIRST, true)).1 == FIRST
  {
    ClaimNames();
    var path := [OWN, SECOND];
    assert LinkAt(w, path, 0);
    SwitchTakesOver(w, FIRST, path);
    FollowsPath(w, OWN, path, MAX_MOVES);
  }

  /** The linking write would so take the memory off a newer claim than the one it copied: the source is on
      the chain, and is not its end. */
  lemma SourceIsLeftBehind()
    ensures Chained(Renamed()) && Overwrites(Renamed(), FIRST)
    ensures InUse(Renamed()) == (StatePlan(Some(SECOND), true, false), SECOND) && LeftBehind(Renamed(), OWN)
  {
    OnlyTheNamingIsBroken();
    ClaimsAre();
    StateIs();
    TakesOver(Renamed());
  }

  /** Where the pass stands when it comes to the StatefulSet: the source is linked to the first claim
      again, and the first claim's move has switched. */
  function Switching(w: World): World
    requires IsOurs(w, FIRST) && OWN in w.claims
  {
    WithPhase(WithLink(w, OWN, FIRST, true), FIRST, Switched)
  }

  ghost predicate Moves(w: World) {
    && Chained(w) && w.agent.Some? && w.agent.value.move == Some("1") && w.claims[FIRST].move.value.id == "1"
    && w.agent.value.fenced && !w.agent.value.deleting && !w.agent.value.heldStopped && w.pod.None?
    && SourceUnchanged(w, w.claims[FIRST].move.value) && w.claims[FIRST].movedTo.None?
    && w.sts == Some(StatefulSet(1, false, true, Some(SECOND), true))
    && InUse(w) == (StatePlan(Some(SECOND), true, false), SECOND)
  }

  lemma Switches(w: World)
    requires Moves(w)
    ensures ReconcileMove(CONFIG, Pass(w, 3, true), true) == (Pass(Switching(w), 1, true), StatePlan(Some(FIRST), true, false))
  {
    ClaimNames();
    var pass := Pass(w, 3, true);
    assert LinkMove(pass, OWN, FIRST, true) == Pass(WithLink(w, OWN, FIRST, true), 2, true);
    assert SwitchMove(pass, FIRST) == (Pass(Switching(w), 1, true), StatePlan(Some(FIRST), true, false));
  }

  lemma PassSwitches(w: World)
    requires Moves(w)
    ensures var w' := Reconcile(CONFIG, Pass(w, 3, true)).w;
            && w'.claims == Switching(w).claims && w'.name == w.name
            && w'.sts.Some? && w'.sts.value.mount == Some(FIRST) && w'.sts.value.replicas == 1
  {
    var pass := Pass(w, 3, true);
    assert ReconcileFence(CONFIG, pass) == (pass, true);
    Switches(w);
  }

  lemma MovesFirst()
    ensures Moves(Renamed())
  {
    SourceIsLeftBehind();
    ClaimsAre();
    StateIs();
  }

  /** One pass then moves the memory from the second claim, with what was written there, to the first,
      which never had it: advancing a move does not compare its source with the claim in use. */
  lemma RenamingLosesWrites()
    ensures var w := Renamed();
            var w' := Reconcile(CONFIG, Pass(w, 3, true)).w;
            && InUse(w).1 == SECOND && SECOND in w.claims && w.claims[SECOND].content == WRITTEN
            && InUse(w').1 == FIRST && FIRST in w'.claims && w'.claims[FIRST].content == Content(0, 0)
            && w'.sts.Some? && w'.sts.value.mount == Some(FIRST) && w'.sts.value.replicas == 1
  {
    ClaimNames();
    ClaimsAre();
    MovesFirst();
    PassSwitches(Renamed());
    EndsAtFirst(Renamed(), Reconcile(CONFIG, Pass(Renamed(), 3, true)).w);
  }

  lemma EndsAtFirst(w: World, w': World)
    requires Moves(w) && w'.claims == Switching(w).claims && w'.name == w.name
    ensures InUse(w').1 == FIRST && w'.claims[FIRST].content == w.claims[FIRST].content
  {
    ClaimNames();
    assert StateInUse(w', FIRST, 63) == (StatePlan(Some(FIRST), true, false), FIRST);
  }
}
