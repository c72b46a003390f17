/** The claim the memory is on, against the chain of moves it stands at the end of. */
module Chain {
  import opened Options
  import opened Cluster
  import opened Fence
  import opened Move
  import opened Workload
  import opened Invariants
  import opened MoveSafety
  import opened Progress
  import opened RunSafety

  // ---- Chains ----

  /** A claim the chain may go through: the StatefulSet's own, or one a move of the Agent made. */
  ghost predicate MayFollow(w: World, name: Name) {
    name == OwnClaim(w.name) || IsMove(w.claims, name)
  }

  ghost predicate Link(w: World, name: Name, next: Name) {
    name in w.claims && w.claims[name].movedTo == Some(next)
  }

  ghost predicate LinkAt(w: World, path: seq<Name>, i: nat)
    requires i < |path| - 1
  {
    Link(w, path[i], path[i + 1])
  }

  ghost predicate PathFrom(w: World, start: Name, path: seq<Name>) {
    && path != [] && path[0] == start
    && (forall i | 0 <= i < |path| :: MayFollow(w, path[i]))
    && (forall i | 0 <= i < |path| - 1 :: LinkAt(w, path, i))
  }

  lemma Prepend(w: World, start: Name, rest: seq<Name>)
    requires MayFollow(w, start) && rest != [] && Link(w, start, rest[0]) && PathFrom(w, rest[0], rest)
    ensures PathFrom(w, start, [start] + rest)
  {
    var path := [start] + rest;
    forall i | 0 <= i < |path| - 1
      ensures LinkAt(w, path, i)
    {
      assert i == 0 || LinkAt(w, rest, i - 1);
    }
  }

  lemma Tail(w: World, start: Name, path: seq<Name>)
    requires PathFrom(w, start, path) && |path| > 1
    ensures Link(w, start, path[1]) && PathFrom(w, path[1], path[1..])
  {
    assert LinkAt(w, path, 0);
    forall i | 0 <= i < |path[1..]| - 1
      ensures LinkAt(w, path[1..], i)
    {
      assert LinkAt(w, path, i + 1);
    }
  }

  /** The memory moved nowhere from here; the StatefulSet's own claim need not exist yet. */
  ghost predicate Ends(w: World, name: Name) {
    if name in w.claims then w.claims[name].movedTo.None? else name == OwnClaim(w.name)
  }

  function Last(path: seq<Name>): Name
    requires path != []
  {
    path[|path| - 1]
  }

  /** What a workload is built with for the claim a chain ends at. */
  function PlanFor(w: World, name: Name): StatePlan {
    if name == OwnClaim(w.name) then OWN_PLAN else StatePlan(Some(name), true, false)
  }

  lemma {:induction false} FollowsPath(w: World, start: Name, path: seq<Name>, fuel: nat)
    requires PathFrom(w, start, path) && Ends(w, Last(path)) && |path| <= fuel
    ensures StateInUse(w, start, fuel) == (PlanFor(w, Last(path)), Last(path))
    decreases fuel
  {
    if |path| > 1 {
      Tail(w, start, path);
      FollowsPath(w, path[1], path[1..], fuel - 1);
    }
  }

  lemma {:induction false} FindsPath(w: World, start: Name, fuel: nat) returns (path: seq<Name>)
    requires !StateInUse(w, start, fuel).0.hold
    ensures PathFrom(w, start, path) && Ends(w, Last(path)) && |path| <= fuel
    decreases fuel
  {
    path := [start];
    if start in w.claims && w.claims[start].movedTo.Some? {
      var rest := FindsPath(w, w.claims[start].movedTo.value, fuel - 1);
      Prepend(w, start, rest);
      path := [start] + rest;
    }
  }

  ghost predicate ChainOf(w: World, path: seq<Name>) {
    PathFrom(w, OwnClaim(w.name), path) && Ends(w, Last(path))
  }

  /** The agent runs exactly when a chain of at most 63 links, all through claims of its own moves,
      leads from the StatefulSet's own claim to an end, and it then runs on that end. A longer chain,
      one that comes back to a claim, and one through a claim no move of the Agent made all hold it. */
  lemma InUseIsTheEnd(w: World)
    ensures !InUse(w).0.hold <==> exists path :: ChainOf(w, path) && |path| <= 64
    ensures forall path | ChainOf(w, path) && |path| <= 64 :: InUse(w) == (PlanFor(w, Last(path)), Last(path))
  {
    forall path | ChainOf(w, path) && |path| <= MAX_MOVES
      ensures InUse(w) == (PlanFor(w, Last(path)), Last(path))
    {
      FollowsPath(w, OwnClaim(w.name), path, MAX_MOVES);
    }
    if !InUse(w).0.hold {
      var path := FindsPath(w, OwnClaim(w.name), MAX_MOVES);
      assert ChainOf(w, path);
    }
  }

  // ---- The chains of a run ----

  /** Along a chain of a run the claims are ever newer, so none comes twice. */
  lemma {:induction false} ChainClimbs(w: World, path: seq<Name>, i: nat, j: nat)
    requires Links(w.claims) && Recordings(w.name, w.claims)
    requires PathFrom(w, OwnClaim(w.name), path) && i < j < |path|
    ensures path[i] in w.claims && path[j] in w.claims && w.claims[path[i]].uid < w.claims[path[j]].uid
    ensures path[i] != path[j]
    decreases j
  {
    assert LinkAt(w, path, j - 1);
    assert Named(w.claims, path[j - 1]);
    assert Recorded(w.name, w.claims, path[j]);
    if i < j - 1 {
      ChainClimbs(w, path, i, j - 1);
    }
  }

  lemma {:induction false} HoldMeansLong(w: World, start: Name, fuel: nat) returns (path: seq<Name>)
    requires Links(w.claims) && MayFollow(w, start) && StateInUse(w, start, fuel).0.hold
    ensures PathFrom(w, start, path) && |path| == fuel + 1
    decreases fuel
  {
    path := [start];
    if fuel > 0 {
      assert Named(w.claims, start);
      var rest := HoldMeansLong(w, w.claims[start].movedTo.value, fuel - 1);
      Prepend(w, start, rest);
      path := [start] + rest;
    }
  }

  /** In every run no chain comes back to a claim, and an agent held for its chain has more than 63
      moves in it. */
  lemma RunChains(run: seq<World>, i: nat)
    requires IsRun(run) && i < |run|
    ensures forall path, a, b | PathFrom(run[i], OwnClaim(run[i].name), path) && 0 <= a < b < |path| :: path[a] != path[b]
    ensures InUse(run[i]).0.hold ==> exists path :: PathFrom(run[i], OwnClaim(run[i].name), path) && |path| == MAX_MOVES + 1
  {
    RunIsSafe(run, i);
    Open(run[i]);
    forall path, a, b | PathFrom(run[i], OwnClaim(run[i].name), path) && 0 <= a < b < |path|
      ensures path[a] != path[b]
    {
      ChainClimbs(run[i], path, a, b);
    }
    if InUse(run[i]).0.hold {
      var path := HoldMeansLong(run[i], OwnClaim(run[i].name), MAX_MOVES);
    }
  }

  // ---- What a switch does to the chain ----

  /** A verified move whose source does not name it: what advancing it then writes is the source's name
      for it, over any other name there. Nothing is asked of how the move came to be named. */
  ghost predicate Overwrites(w: World, target: Name) {
    && Recordings(w.name, w.claims) && Links(w.claims)
    && IsMove(w.claims, target)
    && w.claims[target].move.value.phase == Verified
    && w.claims[w.claims[target].move.value.source].movedTo != Some(target)
  }

  /** The claim names where its memory moved, and the claim in use is newer. */
  ghost predicate LeftBehind(w: World, c: Name) {
    && c in w.claims && w.claims[c].movedTo.Some?
    && InUse(w).1 in w.claims && w.claims[c].uid < w.claims[InUse(w).1].uid
  }

  /** The write that links a move, in every state with the chain as the other invariants leave it and
      whatever the move's id was named after: the move's claim comes into use exactly when its source is
      on the chain, and otherwise the memory stays where it was. It is taken off a claim other than the
      source, a newer one, exactly when the source is on the chain and not its end: comparing the source
      with the claim in use before the write would refuse just that. */
  lemma SwitchTakesOver(w: World, target: Name, path: seq<Name>)
    requires Overwrites(w, target) && ChainOf(w, path) && |path| < MAX_MOVES
    ensures var source := Record(w, target).source;
            var w' := WithLink(w, source, target, true);
            && InUse(w').1 in {target, InUse(w).1} && InUse(w).1 != target
            && (InUse(w').1 == target <==> source in path)
            && (InUse(w).1 != source && InUse(w').1 != InUse(w).1 <==> source in path && source != InUse(w).1)
            && (source in path && source != InUse(w).1 ==> LeftBehind(w, source))
  {
    var source := Record(w, target).source;
    SwitchDiverts(w, target, path);
    if source in path && source != Last(path) {
      var k :| 0 <= k < |path| && path[k] == source;
      assert LinkAt(w, path, k);
      ChainClimbs(w, path, k, |path| - 1);
    }
  }

  lemma SwitchDiverts(w: World, target: Name, path: seq<Name>)
    requires Overwrites(w, target) && ChainOf(w, path) && |path| < MAX_MOVES
    ensures InUse(w).1 == Last(path) && target !in path
    ensures var source := Record(w, target).source;
            InUse(WithLink(w, source, target, true))
            == if source in path then (StatePlan(Some(target), true, false), target) else InUse(w)
  {
    var source := Record(w, target).source;
    var w' := WithLink(w, source, target, true);
    UnlinkedEnds(w, target);
    NotOnPath(w, target, path);
    FollowsPath(w, OwnClaim(w.name), path, MAX_MOVES);
    if source in path {
      var k :| 0 <= k < |path| && path[k] == source;
      Diverts(w, w', target, path, k);
      assert Recorded(w.name, w.claims, target);
      FollowsPath(w', OwnClaim(w.name), path[..k + 1] + [target], MAX_MOVES);
    } else {
      Keep(w, w', target, path);
      FollowsPath(w', OwnClaim(w.name), path, MAX_MOVES);
    }
  }

  /** A verified move not named by its source was never linked, and no move began from its claim. */
  lemma UnlinkedEnds(w: World, target: Name)
    requires Overwrites(w, target)
    ensures w.claims[target].move.value.linkedAt.None? && w.claims[target].movedTo.None?
    ensures Diverted(w, WithLink(w, Record(w, target).source, target, true), target)
  {
    var r := w.claims[target].move.value;
    assert Recorded(w.name, w.claims, target) && StillNamed(w.claims, r, target);
    var movedTo := w.claims[target].movedTo;
    assert movedTo.Some? ==> Named(w.claims, target);
    assert movedTo.Some? ==> Recorded(w.name, w.claims, movedTo.value);
  }

  /** So it is on no chain. */
  lemma NotOnPath(w: World, target: Name, path: seq<Name>)
    requires Overwrites(w, target) && PathFrom(w, OwnClaim(w.name), path)
    ensures target !in path
  {
    UnlinkedEnds(w, target);
    assert Recorded(w.name, w.claims, target);
    forall i | 0 <= i < |path|
      ensures path[i] != target
    {
      if i > 0 {
        assert LinkAt(w, path, i - 1);
        assert Named(w.claims, path[i - 1]);
      }
    }
  }

  /** What the write leaves of the chain: every name on a claim, but the source's. */
  ghost predicate Diverted(w: World, w': World, target: Name) {
    && w'.name == w.name && IsMove(w.claims, target) && w'.claims.Keys == w.claims.Keys
    && var source := w.claims[target].move.value.source;
    && source in w.claims && source != target && w.claims[target].movedTo.None?
    && (forall c | c in w.claims && c != source :: w'.claims[c].movedTo == w.claims[c].movedTo)
    && w'.claims[source].movedTo == Some(target)
    && (forall c | c in w.claims :: Ours(w'.claims[c]) <==> Ours(w.claims[c]))
  }

  lemma Keep(w: World, w': World, target: Name, path: seq<Name>)
    requires Diverted(w, w', target) && ChainOf(w, path)
    requires w.claims[target].move.value.source !in path
    ensures ChainOf(w', path)
  {
    forall i | 0 <= i < |path| - 1
      ensures LinkAt(w', path, i)
    {
      assert LinkAt(w, path, i);
    }
    assert forall i | 0 <= i < |path| :: MayFollow(w, path[i]) && MayFollow(w', path[i]);
  }

  /** The chain up to the source, and then the move's claim. */
  lemma Diverts(w: World, w': World, target: Name, path: seq<Name>, k: nat)
    requires Diverted(w, w', target) && Recordings(w.name, w.claims) && Links(w.claims)
    requires ChainOf(w, path) && k < |path| && path[k] == w.claims[target].move.value.source
    ensures ChainOf(w', path[..k + 1] + [target])
  {
    var diverted := path[..k + 1] + [target];
    forall i | 0 <= i < |diverted| - 1
      ensures LinkAt(w', diverted, i)
    {
      if i < k {
        ChainClimbs(w, path, i, k);
        assert LinkAt(w, path, i);
      }
    }
    assert forall i | 0 <= i <= k :: MayFollow(w, path[i]) && MayFollow(w', path[i]);
  }

  /** Where the naming rule is kept the source names no other claim yet, so it is on the chain only as its
      end: the move's claim comes into use exactly when the move began from the claim in use. */
  lemma SwitchExtendsChain(w: World, target: Name, path: seq<Name>)
    requires Overwrites(w, target) && ChainOf(w, path) && |path| < MAX_MOVES
    requires NamedLast(w.name, w.agent, w.claims) && Current(w, target)
    ensures var w' := WithLink(w, Record(w, target).source, target, true);
            InUse(w').1 == target <==> InUse(w).1 == Record(w, target).source
  {
    SwitchTakesOver(w, target, path);
    FollowsPath(w, OwnClaim(w.name), path, MAX_MOVES);
    assert Recorded(w.name, w.claims, target);
    NoOtherName(w, target);
  }

  /** No move began from a move's claim before that move was linked. */
  lemma UnlinkedIsFree(w: World, target: Name)
    requires Safe(w) && IsMove(w.claims, target) && w.claims[target].move.value.linkedAt.None?
    ensures w.claims[target].movedTo.None? && target != OwnClaim(w.name) && w.claims[target].move.value.source != target
  {
    Open(w);
    assert Recorded(w.name, w.claims, target);
    var movedTo := w.claims[target].movedTo;
    assert movedTo.Some? ==> Named(w.claims, target);
    assert movedTo.Some? ==> Recorded(w.name, w.claims, movedTo.value);
  }
}
