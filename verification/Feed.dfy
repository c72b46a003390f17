/** The desired feed: what a controller is shown, in the order stored, and the position that accounts
    for all of it. */
module Feed {
  import opened Options
  import opened Domain
  import opened Store
  import opened StoreFrames
  import opened StoreSafety

  // ---- What is shown ----

  datatype Owed = Owed(revision: DesiredRevision, position: Position)

  /** The agent's latest revision is recorded for the controller. */
  ghost predicate Owes(s: Store, operator: string, agent: GRN) {
    && At(s.definitions, agent) != []
    && Last(s.definitions[agent]).assignment.Some?
    && Last(s.definitions[agent]).assignment.value.operator == operator
  }

  /** The store can look up what it shows of the agent's latest revision. */
  ghost predicate Showable(s: Store, agent: GRN) {
    && At(s.definitions, agent) != []
    && |At(s.positions, agent)| == |s.definitions[agent]|
    && Published(s, Last(s.definitions[agent]).organization, Last(s.definitions[agent]).profile)
  }

  ghost function SettingsOf(s: Store, d: Definition): Settings
    requires Published(s, d.organization, d.profile)
  {
    s.profiles[Named(d.organization, d.profile.name)][d.profile.version - 1]
  }

  ghost function OwedOf(s: Store, agent: GRN): Owed
    requires Showable(s, agent)
  {
    var latest := Last(s.definitions[agent]);
    Owed(DesiredRevision(latest, SettingsOf(s, latest), IsStopped(s, agent), OpenIn(At(s.recoveries, agent))),
         Last(s.positions[agent]))
  }

  ghost predicate IsOwed(s: Store, operator: string, o: Owed) {
    exists agent :: OwedFor(s, operator, agent, o)
  }

  ghost predicate OwedFor(s: Store, operator: string, agent: GRN, o: Owed) {
    Owes(s, operator, agent) && Showable(s, agent) && o == OwedOf(s, agent)
  }

  /** Every reachable store can look up all it shows: no index is out of range. */
  lemma AllShowable(s: Store, agent: GRN)
    requires StoreOk(s) && At(s.definitions, agent) != []
    ensures Showable(s, agent)
  {
    assert NumberedOk(s.profiles, agent, s.definitions[agent]);
  }

  // ---- The page ----

  ghost predicate InOrder(owed: seq<Owed>) {
    forall i, j | 0 <= i < j < |owed| :: owed[i].position < owed[j].position
  }

  /** Exactly what the controller is owed, in the order stored. */
  ghost predicate AllOwed(s: Store, operator: string, owed: seq<Owed>) {
    && InOrder(owed)
    && forall o :: o in owed <==> IsOwed(s, operator, o)
  }

  function Revisions(owed: seq<Owed>): (r: seq<DesiredRevision>)
    ensures |r| == |owed| && forall i | 0 <= i < |owed| :: r[i] == owed[i].revision
  {
    if owed == [] then [] else Revisions(owed[..|owed| - 1]) + [owed[|owed| - 1].revision]
  }

  function Capped(owed: seq<Owed>, limit: nat): seq<Owed> {
    if limit < |owed| then owed[..limit] else owed
  }

  /** The page answered to a controller: the first of what it is owed, and the position they were read
      at. */
  ghost predicate IsPage(s: Store, operator: string, limit: nat, page: DesiredPage) {
    exists owed :: AllOwed(s, operator, owed) && page == DesiredPage(s.position, Revisions(Capped(owed, limit)))
  }

  lemma SomeOf(owed: seq<Owed>)
    ensures owed == [] || exists o :: o in owed
  {
    if owed != [] {
      assert owed[0] in owed;
    }
  }

  /** Two sequences in order of the same entries are one: reading the map in any order gives one page. */
  lemma {:induction false} OneOrder(a: seq<Owed>, b: seq<Owed>)
    requires InOrder(a) && InOrder(b) && forall o :: o in a <==> o in b
    ensures a == b
    decreases |a|
  {
    if a != [] && b != [] {
      assert a[|a| - 1] in b && b[|b| - 1] in a;
      var x, y := a[|a| - 1], b[|b| - 1];
      var c, d := a[..|a| - 1], b[..|b| - 1];
      assert x == y;
      forall o
        ensures o in c <==> o in d
      {
        assert o in a <==> o in c || o == x;
        assert o in b <==> o in d || o == y;
      }
      OneOrder(c, d);
    } else {
      SomeOf(a);
      SomeOf(b);
    }
  }

  lemma OnePage(s: Store, operator: string, limit: nat, page: DesiredPage, other: DesiredPage)
    requires IsPage(s, operator, limit, page) && IsPage(s, operator, limit, other)
    ensures page == other
  {
    var a :| AllOwed(s, operator, a) && page == DesiredPage(s.position, Revisions(Capped(a, limit)));
    var b :| AllOwed(s, operator, b) && other == DesiredPage(s.position, Revisions(Capped(b, limit)));
    OneOrder(a, b);
  }

  // ---- The position accounts for what is shown ----

  /** Nothing of any agent that the feed shows differs. */
  ghost predicate ShownSame(s: Store, s': Store) {
    && s'.definitions == s.definitions && s'.positions == s.positions
    && (forall organization, ref | Published(s, organization, ref) ::
          && Published(s', organization, ref)
          && s'.profiles[Named(organization, ref.name)][ref.version - 1] == s.profiles[Named(organization, ref.name)][ref.version - 1])
    && (forall agent :: IsStopped(s', agent) <==> IsStopped(s, agent))
    && (forall agent :: OpenIn(At(s'.recoveries, agent)) == OpenIn(At(s.recoveries, agent)))
  }

  lemma {:induction false} OpenStays(rs: seq<Recovery>, i: nat, r: Recovery)
    requires i < |rs| && r.requestID == rs[i].requestID && r.epoch == rs[i].epoch
    requires r.stage == RecoveryFinalized <==> rs[i].stage == RecoveryFinalized
    ensures OpenIn(rs[i := r]) == OpenIn(rs)
    decreases |rs|
  {
    if i < |rs| - 1 {
      assert rs[i := r][..|rs| - 1] == rs[..|rs| - 1][i := r];
      OpenStays(rs[..|rs| - 1], i, r);
    } else {
      assert rs[i := r][..|rs| - 1] == rs[..|rs| - 1];
    }
  }

  lemma PublishShows(s: Store, key: Named, settings: Settings)
    ensures ShownSame(s, s.(profiles := s.profiles[key := At(s.profiles, key) + [settings]]))
  {
    var s' := s.(profiles := s.profiles[key := At(s.profiles, key) + [settings]]);
    assert forall agent, k :: HoldsAgent(s', agent, k) <==> HoldsAgent(s, agent, k);
    assert forall agent :: IsStopped(s', agent) <==> IsStopped(s, agent);
  }

  /** What changes none of the revisions, profiles, recoveries or stops shows the same. */
  lemma UnshownSame(s: Store, s': Store)
    requires s'.profiles == s.profiles && s'.definitions == s.definitions && s'.positions == s.positions
    requires s'.recoveries == s.recoveries && s'.stops == s.stops
    ensures ShownSame(s, s')
  {
    assert forall agent, k :: HoldsAgent(s', agent, k) <==> HoldsAgent(s, agent, k);
    assert forall agent :: IsStopped(s', agent) <==> IsStopped(s, agent);
  }

  lemma PrepareShows(s: Store, agent: GRN, requestID: string, epoch: string, body: Body)
    ensures ShownSame(s, PrepareRecovery(s, agent, requestID, epoch, body).0)
  {
    var s' := PrepareRecovery(s, agent, requestID, epoch, body).0;
    if s' != s {
      var i := RecoveryIndex(At(s.recoveries, agent), requestID).value;
      OneRecoveryShows(s, agent, i, s'.recoveries[agent][i]);
    } else {
      UnshownSame(s, s);
    }
  }

  lemma OneRecoveryShows(s: Store, agent: GRN, i: nat, r: Recovery)
    requires i < |At(s.recoveries, agent)|
    requires r.requestID == s.recoveries[agent][i].requestID && r.epoch == s.recoveries[agent][i].epoch
    requires r.stage == RecoveryFinalized <==> s.recoveries[agent][i].stage == RecoveryFinalized
    ensures ShownSame(s, WithRecovery(s, agent, i, r))
  {
    var s' := WithRecovery(s, agent, i, r);
    assert forall a, k :: HoldsAgent(s', a, k) <==> HoldsAgent(s, a, k);
    assert forall a :: IsStopped(s', a) <==> IsStopped(s, a);
    OpenStays(s.recoveries[agent], i, r);
  }

  lemma DeactivationShows(s: Store, key: RequestKey)
    ensures ShownSame(s, RecordDeactivation(s, key).0)
  {
    var s' := RecordDeactivation(s, key).0;
    forall agent
      ensures IsStopped(s', agent) <==> IsStopped(s, agent)
    {
      assert forall k :: HoldsAgent(s', agent, k) <==> HoldsAgent(s, agent, k);
    }
  }

  lemma ConfigureShows(s: Store, r: Request, d: Definition)
    ensures var s' := Configure(s, r, d).0; s'.position == s.position + 1 || (s'.position == s.position && ShownSame(s, s'))
  {
    ConfigureParts(s, r, d);
    var s' := Configure(s, r, d).0;
    if s' == s.(requests := s'.requests) {
      UnshownSame(s, s');
    }
  }

  lemma RegisterMoves(s: Store, key: RequestKey, d: Definition)
    requires d.assignment.Some?
    ensures var s' := RegisterCreation(s, key, d).0; s'.position == s.position + 1 || s' == s
  {
  }

  lemma SilentShows(s: Store, op: Op)
    requires Permitted(s, op) && (op.OpBeginCreation? || op.OpFailCreation? || op.OpRegisterPlacement?
                                  || op.OpInsertActivation? || op.OpRecordActivation? || op.OpRecordApplied?)
    ensures ShownSame(s, Apply(s, op)) && Apply(s, op).position == s.position
  {
    ApplyFrame(s, op);
    SilentFrame(s, op, Apply(s, op));
  }

  lemma SilentFrame(s: Store, op: Op, s': Store)
    requires Frame(op, s, s') && !Publishes(op) && !op.OpConfigure? && !op.OpRegisterCreation? && !Recovers(op) && !Stops(op)
    ensures ShownSame(s, s') && s'.position == s.position
  {
    FrameSays(op, s, s');
    UnshownSame(s, s');
  }

  lemma MovesOrSame(s: Store, op: Op)
    requires Permitted(s, op) && (op.OpOpenRecovery? || op.OpFinalizeRecovery? || op.OpRecordStop? || op.OpRecordStart?)
    ensures Apply(s, op) == s || Apply(s, op).position == s.position + 1
  {
  }

  /** No operation changes what any controller is shown without moving the position, and none moves it
      back. */
  lemma OperationShows(s: Store, op: Op)
    requires Permitted(s, op)
    ensures Apply(s, op).position >= s.position
    ensures Apply(s, op).position == s.position ==> ShownSame(s, Apply(s, op))
  {
    match op {
      case OpPublish(organization, name, settings) => PublishShows(s, Named(organization, name), settings);
      case OpPublishVersion(organization, ref, settings) =>
        PublishShows(s, Named(organization, ref.name), settings);
        UnshownSame(s, s);
      case OpConfigure(r, d) => ConfigureShows(s, r, d);
      case OpRegisterCreation(key, d) =>
        RegisterMoves(s, key, d);
        UnshownSame(s, s);
      case OpBeginCreation(_) => SilentShows(s, op);
      case OpFailCreation(_, _) => SilentShows(s, op);
      case OpPrepareRecovery(agent, requestID, epoch) => PrepareShows(s, agent, requestID, epoch, RecoveryBody(requestID, epoch));
      case OpRecordDeactivation(key) => DeactivationShows(s, key);
      case OpRegisterPlacement(_) => SilentShows(s, op);
      case OpInsertActivation(_) => SilentShows(s, op);
      case OpRecordActivation(_, _, _) => SilentShows(s, op);
      case OpRecordApplied(_, _) => SilentShows(s, op);
      case _ =>
        MovesOrSame(s, op);
        UnshownSame(s, s);
    }
  }

  lemma ShownSameOn(s: Store, s1: Store, s2: Store)
    requires ShownSame(s, s1) && ShownSame(s1, s2)
    ensures ShownSame(s, s2)
  {
  }

  lemma SameOwed(s: Store, s': Store, operator: string, o: Owed)
    requires StoreOk(s) && ShownSame(s, s')
    ensures IsOwed(s, operator, o) ==> IsOwed(s', operator, o)
  {
    if IsOwed(s, operator, o) {
      var agent :| OwedFor(s, operator, agent, o);
      SameOwedOf(s, s', agent);
      assert OwedFor(s', operator, agent, o);
    }
  }

  lemma SameOwedOf(s: Store, s': Store, agent: GRN)
    requires ShownSame(s, s') && Showable(s, agent)
    ensures Showable(s', agent) && OwedOf(s', agent) == OwedOf(s, agent)
  {
  }

  lemma SameOwedBack(s: Store, s': Store, operator: string, o: Owed)
    requires StoreOk(s) && ShownSame(s, s')
    ensures IsOwed(s', operator, o) ==> IsOwed(s, operator, o)
  {
    if IsOwed(s', operator, o) {
      var agent :| OwedFor(s', operator, agent, o);
      AllShowable(s, agent);
      SameOwedOf(s, s', agent);
      assert OwedFor(s, operator, agent, o);
    }
  }

  lemma SamePages(s: Store, s': Store, operator: string, limit: nat, page: DesiredPage)
    requires StoreOk(s) && ShownSame(s, s') && s'.position == s.position
    ensures IsPage(s, operator, limit, page) <==> IsPage(s', operator, limit, page)
  {
    forall o
      ensures IsOwed(s', operator, o) <==> IsOwed(s, operator, o)
    {
      SameOwed(s, s', operator, o);
      SameOwedBack(s, s', operator, o);
    }
    forall owed
      ensures AllOwed(s, operator, owed) <==> AllOwed(s', operator, owed)
    {
    }
  }

  lemma StepShows(s: Store, s': Store)
    requires Step(s, s')
    ensures s'.position >= s.position
    ensures s'.position == s.position ==> ShownSame(s, s')
  {
    var op :| Permitted(s, op) && s' == Apply(s, op);
    OperationShows(s, op);
  }

  lemma {:induction false} RunShows(run: seq<Store>, i: nat, j: nat)
    requires IsRun(run) && i <= j < |run|
    ensures run[i].position <= run[j].position
    ensures run[i].position == run[j].position ==> ShownSame(run[i], run[j])
    decreases j
  {
    if i < j {
      RunShows(run, i, j - 1);
      assert StepAt(run, j - 1);
      StepShows(run[j - 1], run[j]);
      if run[i].position == run[j].position {
        ShownSameOn(run[i], run[j - 1], run[j]);
      }
    } else {
      UnshownSame(run[i], run[i]);
    }
  }

  /** Over every run, and for every controller and limit: the position never decreases, and where it
      stood still, the page is the one page it was, revisions, settings, stops and open recoveries. */
  lemma PositionAccountsForFeed(run: seq<Store>, i: nat, j: nat, operator: string, limit: nat, page: DesiredPage)
    requires IsRun(run) && i <= j < |run|
    ensures run[i].position <= run[j].position
    ensures run[i].position == run[j].position ==>
              (IsPage(run[i], operator, limit, page) <==> IsPage(run[j], operator, limit, page))
  {
    RunShows(run, i, j);
    RunIsOk(run, i);
    if run[i].position == run[j].position {
      SamePages(run[i], run[j], operator, limit, page);
    }
  }

  // ---- Waiting for a change ----

  /** Reads the position again and again until it is past the cursor, the last time once the wait has
      passed or the request is gone. It answers how many reads it took, or refuses a cursor ahead of the
      store. */
  method WaitPast(after: Option<Position>, seen: seq<Position>) returns (r: Result<nat, Error>)
    requires seen != []
    ensures after.None? ==> r == Ok(0)
    ensures after.Some? && r.Ok? ==>
              && 1 <= r.value <= |seen|
              && (forall k | 0 <= k < r.value - 1 :: seen[k] == after.value)
              && seen[r.value - 1] >= after.value
              && (seen[r.value - 1] > after.value || r.value == |seen|)
    ensures after.Some? && r.Err? ==>
              && r.error == InvalidQuery
              && exists k | 0 <= k < |seen| :: seen[k] < after.value && forall j | 0 <= j < k :: seen[j] == after.value
  {
    if after.None? {
      return Ok(0);
    }
    var k := 0;
    while true
      invariant 0 <= k < |seen|
      invariant forall j | 0 <= j < k :: seen[j] == after.value
      decreases |seen| - k
    {
      if seen[k] < after.value {
        return Err(InvalidQuery);
      }
      if seen[k] > after.value || k == |seen| - 1 {
        return Ok(k + 1);
      }
      k := k + 1;
    }
  }

  /** So a controller that waits past the cursor of an answer it was given, while the store runs on, is
      never refused its cursor; and when the wait ends with nothing moved, what it would be answered
      is what it was: waiting misses no change. */
  lemma WaitMissesNothing(run: seq<Store>, served: nat, at: seq<nat>, seen: seq<Position>, k: nat,
                          operator: string, limit: nat, page: DesiredPage)
    requires IsRun(run) && served < |run|
    requires |seen| == |at| && forall i | 0 <= i < |at| :: served <= at[i] < |run| && seen[i] == run[at[i]].position
    requires k < |seen|
    ensures seen[k] >= run[served].position
    ensures seen[k] == run[served].position ==>
              (IsPage(run[served], operator, limit, page) <==> IsPage(run[at[k]], operator, limit, page))
  {
    PositionAccountsForFeed(run, served, at[k], operator, limit, page);
  }
}
