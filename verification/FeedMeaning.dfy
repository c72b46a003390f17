/** What a page of the feed shows, in the stored entries' own fields, and that the settings it shows of a
    revision are those published under the version the revision names. */
module FeedMeaning {
  import opened Options
  import opened Domain
  import opened Store
  import opened StoreFrames
  import opened StoreSafety
  import opened StoreHistory
  import opened Feed

  // ---- A page ----

  /** The agent's latest revision is assigned to the operator. */
  ghost predicate AssignedTo(s: Store, operator: string, agent: GRN) {
    && agent in s.definitions && s.definitions[agent] != []
    && var latest := s.definitions[agent][|s.definitions[agent]| - 1];
    && latest.assignment.Some? && latest.assignment.value.operator == operator
  }

  ghost predicate AnyStop(s: Store, agent: GRN) {
    exists key | key in s.stops :: s.stops[key].agent == agent && s.stops[key].start.None?
  }

  /** The open recovery is the one not finalized. */
  ghost predicate ShowsOpen(s: Store, agent: GRN, open: Option<OpenRecovery>) {
    var rs := if agent in s.recoveries then s.recoveries[agent] else [];
    match open
    case None => forall i | 0 <= i < |rs| :: rs[i].stage == RecoveryFinalized
    case Some(o) => exists i | 0 <= i < |rs| ::
      rs[i].stage != RecoveryFinalized && o == OpenRecovery(rs[i].requestID, rs[i].epoch)
      && forall j | 0 <= j < |rs| && j != i :: rs[j].stage == RecoveryFinalized
  }

  /** The entry is of the agent: its latest revision, the settings of the version that names, whether a stop
      holds it, and its open recovery. */
  ghost predicate Shows(s: Store, operator: string, agent: GRN, d: DesiredRevision) {
    && AssignedTo(s, operator, agent)
    && var latest := s.definitions[agent][|s.definitions[agent]| - 1];
    && d.definition == latest
    && var key := Named(latest.organization, latest.profile.name);
    && key in s.profiles && 1 <= latest.profile.version <= |s.profiles[key]|
    && d.settings == s.profiles[key][latest.profile.version - 1]
    && (d.stopped <==> AnyStop(s, agent))
    && ShowsOpen(s, agent, d.recovery)
  }

  lemma {:induction false} OpenInShows(rs: seq<Recovery>)
    ensures OpenIn(rs).None? ==> forall i | 0 <= i < |rs| :: rs[i].stage == RecoveryFinalized
    ensures OpenIn(rs).Some? ==> exists i | 0 <= i < |rs| ::
              rs[i].stage != RecoveryFinalized && OpenIn(rs).value == OpenRecovery(rs[i].requestID, rs[i].epoch)
  {
    if rs != [] {
      var before := rs[..|rs| - 1];
      OpenInShows(before);
      assert forall i | 0 <= i < |before| :: before[i] == rs[i];
    }
  }

  lemma OwedShows(s: Store, operator: string, agent: GRN)
    requires StoreOk(s) && Owes(s, operator, agent) && Showable(s, agent)
    ensures Shows(s, operator, agent, OwedOf(s, agent).revision)
    ensures OwedOf(s, agent).revision.definition.agent == agent
    ensures agent in s.positions && s.positions[agent] != [] && OwedOf(s, agent).position == s.positions[agent][|s.positions[agent]| - 1]
  {
    var rs := At(s.recoveries, agent);
    OpenInShows(rs);
    if agent in s.recoveries {
      assert RecoveryListOk(agent, rs);
    }
    assert NumberedOk(s.profiles, agent, s.definitions[agent]);
    assert AnyStop(s, agent) <==> IsStopped(s, agent) by {
      assert forall key :: HoldsAgent(s, agent, key) <==> key in s.stops && s.stops[key].agent == agent && s.stops[key].start.None?;
    }
  }

  lemma EntryShows(s: Store, operator: string, owed: seq<Owed>, i: nat)
    requires StoreOk(s) && AllOwed(s, operator, owed) && i < |owed|
    ensures var agent := owed[i].revision.definition.agent;
            Shows(s, operator, agent, owed[i].revision) && PositionIs(s, agent, owed[i].position)
  {
    assert owed[i] in owed;
    var agent :| OwedFor(s, operator, agent, owed[i]);
    OwedShows(s, operator, agent);
  }

  lemma AssignedIsOwed(s: Store, operator: string, owed: seq<Owed>, agent: GRN)
    requires StoreOk(s) && AllOwed(s, operator, owed) && AssignedTo(s, operator, agent)
    ensures exists i | 0 <= i < |owed| :: owed[i].revision.definition.agent == agent
  {
    AllShowable(s, agent);
    OwedShows(s, operator, agent);
    assert OwedFor(s, operator, agent, OwedOf(s, agent));
    assert IsOwed(s, operator, OwedOf(s, agent)) && OwedOf(s, agent) in owed;
  }

  ghost predicate AllShown(s: Store, operator: string, owed: seq<Owed>) {
    && InTheirOrder(s, owed)
    && (forall i | 0 <= i < |owed| :: Shows(s, operator, owed[i].revision.definition.agent, owed[i].revision))
    && (forall agent | AssignedTo(s, operator, agent) :: exists i | 0 <= i < |owed| :: owed[i].revision.definition.agent == agent)
  }

  lemma OwedIsShown(s: Store, operator: string, owed: seq<Owed>)
    requires StoreOk(s) && AllOwed(s, operator, owed)
    ensures AllShown(s, operator, owed)
  {
    forall i | 0 <= i < |owed|
      ensures Shows(s, operator, owed[i].revision.definition.agent, owed[i].revision)
      ensures PositionIs(s, owed[i].revision.definition.agent, owed[i].position)
    {
      EntryShows(s, operator, owed, i);
    }
    forall agent | AssignedTo(s, operator, agent)
      ensures exists i | 0 <= i < |owed| :: owed[i].revision.definition.agent == agent
    {
      AssignedIsOwed(s, operator, owed, agent);
    }
  }

  /** A page is read at the store's position; every entry shows an agent assigned to the operator, in the
      order their latest revisions were stored; and an agent assigned is shown, unless the limit is reached
      by agents whose latest revisions were all stored before its own. */
  lemma PageSays(s: Store, operator: string, limit: nat, page: DesiredPage)
    requires StoreOk(s) && IsPage(s, operator, limit, page)
    ensures page.position == s.position && ShowsAll(s, operator, limit, page.revisions)
  {
    var owed: seq<Owed> :| AllOwed(s, operator, owed) && page == DesiredPage(s.position, Revisions(Capped(owed, limit)));
    OwedIsShown(s, operator, owed);
    FirstShown(s, operator, limit, owed, page.revisions);
  }

  lemma FirstShown(s: Store, operator: string, limit: nat, owed: seq<Owed>, revisions: seq<DesiredRevision>)
    requires AllShown(s, operator, owed) && revisions == Revisions(Capped(owed, limit))
    ensures ShowsAll(s, operator, limit, revisions)
  {
    Cut(s, owed, limit, revisions);
    forall k | 0 <= k < |revisions|
      ensures Shows(s, operator, revisions[k].definition.agent, revisions[k])
    {
      assert Shows(s, operator, owed[k].revision.definition.agent, owed[k].revision);
    }
    forall agent | AssignedTo(s, operator, agent)
      ensures ShownOrAfter(s, limit, revisions, agent)
    {
      var i :| 0 <= i < |owed| && owed[i].revision.definition.agent == agent;
      assert ShownOrAfter(s, limit, revisions, owed[i].revision.definition.agent);
    }
  }

  ghost predicate ShowsAll(s: Store, operator: string, limit: nat, revisions: seq<DesiredRevision>) {
    && |revisions| <= limit
    && (forall k | 0 <= k < |revisions| :: Shows(s, operator, revisions[k].definition.agent, revisions[k]))
    && (forall k, l | 0 <= k < l < |revisions| :: StoredBefore(s, revisions[k].definition.agent, revisions[l].definition.agent))
    && (forall agent | AssignedTo(s, operator, agent) ::
          ShownOrAfter(s, limit, revisions, agent))
  }

  ghost predicate PositionIs(s: Store, agent: GRN, position: Position) {
    agent in s.positions && s.positions[agent] != [] && s.positions[agent][|s.positions[agent]| - 1] == position
  }

  ghost predicate StoredBefore(s: Store, a: GRN, b: GRN) {
    && a in s.positions && s.positions[a] != [] && b in s.positions && s.positions[b] != []
    && s.positions[a][|s.positions[a]| - 1] < s.positions[b][|s.positions[b]| - 1]
  }

  ghost predicate InTheirOrder(s: Store, owed: seq<Owed>) {
    InOrder(owed) && forall i | 0 <= i < |owed| :: PositionIs(s, owed[i].revision.definition.agent, owed[i].position)
  }

  ghost predicate ShownOrAfter(s: Store, limit: nat, revisions: seq<DesiredRevision>, agent: GRN) {
    || (exists k | 0 <= k < |revisions| :: revisions[k].definition.agent == agent)
    || (|revisions| == limit && forall k | 0 <= k < |revisions| :: StoredBefore(s, revisions[k].definition.agent, agent))
  }

  /** What is cut off a page comes after all of it. */
  lemma Cut(s: Store, owed: seq<Owed>, limit: nat, revisions: seq<DesiredRevision>)
    requires InTheirOrder(s, owed) && revisions == Revisions(Capped(owed, limit))
    ensures |revisions| <= limit && |revisions| <= |owed| && forall k | 0 <= k < |revisions| :: revisions[k] == owed[k].revision
    ensures forall k, l | 0 <= k < l < |revisions| :: StoredBefore(s, revisions[k].definition.agent, revisions[l].definition.agent)
    ensures forall i | 0 <= i < |owed| :: ShownOrAfter(s, limit, revisions, owed[i].revision.definition.agent)
  {
    assert forall k | 0 <= k < |revisions| :: revisions[k] == owed[k].revision;
    forall i | 0 <= i < |owed|
      ensures ShownOrAfter(s, limit, revisions, owed[i].revision.definition.agent)
    {
      if i < |revisions| {
        assert revisions[i].definition.agent == owed[i].revision.definition.agent;
      }
    }
  }

  // ---- The settings shown ----

  /** A publication answered the version for the settings: by the name's next, or by its number. */
  ghost predicate Publishes(s: Store, t: Store, organization: string, ref: ProfileRef, settings: Settings) {
    || PublishProfile(s, organization, ref.name, settings) == (t, ref.version)
    || (ref.version >= 1 && PublishProfileVersion(s, organization, ref, settings).0 == t
        && PublishProfileVersion(s, organization, ref, settings).1.Ok?)
  }

  lemma PublishedStays(run: seq<Store>, i: nat, j: nat, organization: string, ref: ProfileRef, settings: Settings)
    requires IsRun(run) && i < j < |run| && Publishes(run[i], run[i + 1], organization, ref, settings)
    ensures var key := Named(organization, ref.name);
            key in run[j].profiles && 1 <= ref.version <= |run[j].profiles[key]| && run[j].profiles[key][ref.version - 1] == settings
  {
    var key := Named(organization, ref.name);
    assert key in run[i + 1].profiles && 1 <= ref.version <= |run[i + 1].profiles[key]|;
    RunKept(run, i + 1, j);
    StoreHistory.Open(run[i + 1], run[j]);
    assert run[i + 1].profiles[key] <= run[j].profiles[key];
  }

  /** In every run, an entry of any later page whose revision names a version of a profile carries the very
      settings a publication was answered that version for. */
  lemma PublishedIsShown(run: seq<Store>, i: nat, j: nat, organization: string, ref: ProfileRef, settings: Settings,
                         operator: string, limit: nat, page: DesiredPage, k: nat)
    requires IsRun(run) && i < j < |run| && Publishes(run[i], run[i + 1], organization, ref, settings)
    requires IsPage(run[j], operator, limit, page) && k < |page.revisions|
    requires page.revisions[k].definition.organization == organization && page.revisions[k].definition.profile == ref
    ensures page.revisions[k].settings == settings
  {
    RunIsOk(run, j);
    PublishedStays(run, i, j, organization, ref, settings);
    PageSays(run[j], operator, limit, page);
    assert Shows(run[j], operator, page.revisions[k].definition.agent, page.revisions[k]);
  }
}
