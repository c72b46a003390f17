/**
  The controller's end of the feed: what an entry renders to, and the cache that keeps an unchanged
  entry from being rendered again.
 */
module Puller {
  import opened Options
  import opened Domain
  import opened Store
  import opened StoreSafety
  import opened StoreHistory
  import opened Feed
  import opened Revisions

  // ---- Entries ----

  datatype FeedAgent = FeedAgent(
    grn: GRN, revision: string, epoch: string, profile: ProfileRef, settings: Settings, config: Configuration,
    stopped: bool, recovery: Option<OpenRecovery>)

  /** An entry of the feed, as the control service writes it. */
  function EntryOf(d: DesiredRevision): FeedAgent
    requires d.definition.assignment.Some?
  {
    FeedAgent(d.definition.agent, String(d.definition.revision), d.definition.assignment.value.epoch, d.definition.profile,
              d.settings, d.definition.config, d.stopped, d.recovery)
  }

  const STOPPED_SUFFIX := "/stopped"

  /** What an entry renders, as the cache knows it. */
  function RenderedKey(e: FeedAgent): string {
    if e.stopped then e.revision + STOPPED_SUFFIX else e.revision
  }

  /** A canonical revision holds no '/', so the suffix is read one way. */
  lemma KeyIsOne(a: FeedAgent, b: FeedAgent)
    requires ParseRevision(a.revision).Ok? && ParseRevision(b.revision).Ok?
    ensures RenderedKey(a) == RenderedKey(b) <==> a.revision == b.revision && a.stopped == b.stopped
  {
    assert AllDigits(a.revision) && AllDigits(b.revision);
    if RenderedKey(a) == RenderedKey(b) {
      assert a.stopped ==> RenderedKey(a)[|a.revision|] == '/';
      assert b.stopped ==> RenderedKey(b)[|b.revision|] == '/';
      assert |a.revision| == |b.revision|;
      assert RenderedKey(a)[..|a.revision|] == a.revision && RenderedKey(b)[..|b.revision|] == b.revision;
    }
  }

  // ---- What an entry renders to ----

  datatype SecretKey = SecretKey(name: string, key: string)

  datatype EmbeddingSpec = EmbeddingSpec(baseURL: string, name: string, apiKey: Option<SecretKey>)

  datatype ModelSpec = ModelSpec(
    provider: string, baseURL: string, name: string, apiKey: SecretKey, embedding: Option<EmbeddingSpec>)

  datatype AgentSpec = AgentSpec(
    image: string, storageSize: int, workspaceStorageSize: Option<int>, storageClassName: Option<string>, resources: string,
    model: Option<ModelSpec>, ego: string, tools: map<string, string>, identity: GRN, epoch: string, revision: string,
    stopped: bool)

  /** What the manager was started with, and the two parsers of the libraries it reads entries with. */
  datatype Rendering = Rendering(image: string, quantity: string -> Option<int>, secretKey: string -> Option<SecretKey>)

  function EmbeddingOf(r: Rendering, e: Embedding): Result<EmbeddingSpec, ()> {
    if e.baseURL == "" || e.name == "" then Err(())
    else if e.apiKey == "" then Ok(EmbeddingSpec(e.baseURL, e.name, None))
    else
      match r.secretKey(e.apiKey)
      case None => Err(())
      case Some(key) => Ok(EmbeddingSpec(e.baseURL, e.name, Some(key)))
  }

  function ModelOf(r: Rendering, m: Model): Result<Option<ModelSpec>, ()> {
    if m == NO_MODEL then Ok(None)
    else if m.provider == "" || m.baseURL == "" || m.name == "" then Err(())
    else
      match r.secretKey(m.apiKey)
      case None => Err(())
      case Some(key) =>
        match m.embedding
        case None => if m.provider != MOCK then Err(()) else Ok(Some(ModelSpec(m.provider, m.baseURL, m.name, key, None)))
        case Some(e) =>
          match EmbeddingOf(r, e)
          case Err(_) => Err(())
          case Ok(spec) => Ok(Some(ModelSpec(m.provider, m.baseURL, m.name, key, Some(spec))))
  }

  /** A configuration the control service accepted renders a model exactly when it names none, or names
      its provider, its base URL and its name, which the service does not ask of it; and one it refuses
      never does. */
  lemma AcceptedRenders(r: Rendering, c: Configuration)
    ensures ModelOf(r, c.model).Ok? <==>
              && CheckConfiguration(ref => r.secretKey(ref).Some?, c).Ok?
              && (c.model == NO_MODEL || (c.model.provider != "" && c.model.baseURL != "" && c.model.name != ""))
  {
  }

  /** Such a configuration: the mock, with no base URL and no name. */
  lemma AcceptedMayNotRender(r: Rendering, ref: string)
    requires r.secretKey(ref).Some?
    ensures var c := Configuration(Model(MOCK, "", "", ref, None), "", map[]);
            CheckConfiguration(x => r.secretKey(x).Some?, c).Ok? && ModelOf(r, c.model).Err?
  {
  }

  function WorkspaceOf(r: Rendering, size: Option<string>): Result<Option<int>, ()> {
    match size
    case None => Ok(None)
    case Some(s) =>
      match r.quantity(s)
      case None => Err(())
      case Some(q) => if q <= 0 then Err(()) else Ok(Some(q))
  }

  /** The spec an entry renders to, or that it cannot be rendered as it stands. */
  function SpecOf(r: Rendering, e: FeedAgent): Result<AgentSpec, ()> {
    if e.grn == "" then Err(())
    else
      match r.quantity(e.settings.storageSize)
      case None => Err(())
      case Some(storage) =>
        match WorkspaceOf(r, e.settings.workspaceStorageSize)
        case Err(_) => Err(())
        case Ok(workspace) =>
          match ModelOf(r, e.config.model)
          case Err(_) => Err(())
          case Ok(model) =>
            Ok(AgentSpec(r.image, storage, workspace, e.settings.storageClassName, e.settings.resources, model, e.config.ego,
                         e.config.tools, e.grn, e.epoch, e.revision, e.stopped))
  }

  // ---- One key, one spec ----

  /** In every run of the store, and for every pair of answers to any controllers: two entries of one
      agent under one key render to the same spec. What a revision and a profile version say is never
      rewritten, and a stop is in the key; an open recovery, which is not, is not rendered. */
  lemma KeyDecidesSpec(run: seq<Store>, i: nat, j: nat, agent: GRN, rendering: Rendering)
    requires IsRun(run) && i <= j < |run|
    requires forall k | k in {i, j} :: At(run[k].definitions, agent) != [] && Last(run[k].definitions[agent]).assignment.Some?
    requires forall k | k in {i, j} :: |At(run[k].definitions, agent)| <= MAX_INT64
    ensures Showable(run[i], agent) && Showable(run[j], agent)
    ensures var a, b := OwedOf(run[i], agent).revision, OwedOf(run[j], agent).revision;
            && a.definition.assignment.Some? && b.definition.assignment.Some?
            && (RenderedKey(EntryOf(a)) == RenderedKey(EntryOf(b)) ==>
                  SpecOf(rendering, EntryOf(a)) == SpecOf(rendering, EntryOf(b)))
  {
    RunIsOk(run, i);
    RunIsOk(run, j);
    AllShowable(run[i], agent);
    AllShowable(run[j], agent);
    var a, b := OwedOf(run[i], agent).revision, OwedOf(run[j], agent).revision;
    NumberedLast(run[i], agent);
    NumberedLast(run[j], agent);
    ParseUndoesString(a.definition.revision);
    ParseUndoesString(b.definition.revision);
    if RenderedKey(EntryOf(a)) == RenderedKey(EntryOf(b)) {
      KeyIsOne(EntryOf(a), EntryOf(b));
      StringIsOne(a.definition.revision, b.definition.revision);
      SameRevisionShows(run, i, j, agent);
    }
  }

  lemma NumberedLast(s: Store, agent: GRN)
    requires StoreOk(s) && At(s.definitions, agent) != []
    ensures Last(s.definitions[agent]).revision == |s.definitions[agent]| && Last(s.definitions[agent]).agent == agent
  {
    assert NumberedOk(s.profiles, agent, s.definitions[agent]);
  }

  lemma SameRevisionShows(run: seq<Store>, i: nat, j: nat, agent: GRN)
    requires IsRun(run) && i <= j < |run|
    requires At(run[i].definitions, agent) != [] && At(run[j].definitions, agent) != []
    requires |run[i].definitions[agent]| == |run[j].definitions[agent]|
    requires Showable(run[i], agent) && Showable(run[j], agent)
    ensures var a, b := OwedOf(run[i], agent).revision, OwedOf(run[j], agent).revision;
            a.definition == b.definition && a.settings == b.settings
  {
    RunKept(run, i, j);
    StoreHistory.Open(run[i], run[j]);
    assert run[i].definitions[agent] <= run[j].definitions[agent];
    assert run[i].definitions[agent] == run[j].definitions[agent];
    var d := Last(run[i].definitions[agent]);
    assert run[i].profiles[Named(d.organization, d.profile.name)] <= run[j].profiles[Named(d.organization, d.profile.name)];
  }

  // ---- The cache ----

  /** The Agents the feed holds, by GRN, with the spec last written to each; the cache; and, for the
      statements below, the entry each was last rendered from and the entry last reported. */
  datatype State = State(
    agents: map<GRN, AgentSpec>,
    foreign: set<GRN>,                    // GRNs under whose name a person wrote an Agent
    rendered: map<GRN, string>,
    last: map<GRN, FeedAgent>,            // history
    reported: map<GRN, FeedAgent>)        // history

  datatype Rendered = Written | NotControlSource | Malformed | WriteFailed

  /** What becomes of a write of the Agent: it lands, lands with its answer lost, or does not land. */
  datatype Landing = Lands | LandsUnanswered | Fails

  /** One write of the Agent, or none where it already says this. */
  function Render(s: State, r: Rendering, e: FeedAgent, write: Landing): (State, Rendered) {
    match SpecOf(r, e)
    case Err(_) => (s, Malformed)
    case Ok(spec) =>
      var written := s.(agents := s.agents[e.grn := spec], last := s.last[e.grn := e]);
      if e.grn in s.foreign then (s, NotControlSource)
      else if (e.grn in s.agents && s.agents[e.grn] == spec) || write == Lands then (written, Written)
      else (if write == LandsUnanswered then written else s, WriteFailed)
  }

  predicate Cached(s: State, e: FeedAgent) {
    e.grn in s.rendered && s.rendered[e.grn] == RenderedKey(e)
  }

  /** Renders and reports an entry, unless the cache has its key; only a render that was reported is
      cached. */
  function ApplyTo(s: State, r: Rendering, e: FeedAgent, write: Landing, reports: bool): State {
    if Cached(s, e) then s
    else
      var (next, outcome) := Render(s, r, e, write);
      if outcome != Written || !reports then next
      else next.(rendered := next.rendered[e.grn := RenderedKey(e)], reported := next.reported[e.grn := e])
  }

  class Puller {
    const rendering: Rendering
    var agents: map<GRN, AgentSpec>
    var foreign: set<GRN>
    var rendered: map<GRN, string>
    ghost var last: map<GRN, FeedAgent>
    ghost var reported: map<GRN, FeedAgent>

    constructor (rendering: Rendering, foreign: set<GRN>)
      ensures Snap() == State(map[], foreign, map[], map[], map[])
    {
      this.rendering, this.foreign := rendering, foreign;
      agents, rendered, last, reported := map[], map[], map[], map[];
    }

    ghost function Snap(): State
      reads this
    {
      State(agents, foreign, rendered, last, reported)
    }

    method RenderEntry(e: FeedAgent, write: Landing) returns (outcome: Rendered)
      modifies this
      ensures (Snap(), outcome) == Render(old(Snap()), rendering, e, write)
    {
      var spec := SpecOf(rendering, e);
      if spec.Err? {
        return Malformed;
      }
      if e.grn in foreign {
        return NotControlSource;
      }
      if e.grn in agents && agents[e.grn] == spec.value {
        assert agents == agents[e.grn := spec.value];
        outcome := Written;
      } else {
        if write == Fails {
          return WriteFailed;
        }
        agents := agents[e.grn := spec.value];
        outcome := if write == Lands then Written else WriteFailed;
      }
      last := last[e.grn := e];
    }

    method ApplyEntry(e: FeedAgent, write: Landing, reports: bool)
      modifies this
      ensures Snap() == ApplyTo(old(Snap()), rendering, e, write, reports)
    {
      if e.grn in rendered && rendered[e.grn] == RenderedKey(e) {
        return;
      }
      var outcome := RenderEntry(e, write);
      if outcome != Written || !reports {
        return;
      }
      rendered := rendered[e.grn := RenderedKey(e)];
      reported := reported[e.grn := e];
    }
  }

  // ---- What the cache answers for ----

  /** Entries of a feed: each under a canonical revision, and one key of an agent is one spec. */
  ghost predicate FeedOk(r: Rendering, seen: set<FeedAgent>) {
    && (forall e | e in seen :: ParseRevision(e.revision).Ok?)
    && (forall a, b | a in seen && b in seen && a.grn == b.grn && RenderedKey(a) == RenderedKey(b) :: SpecOf(r, a) == SpecOf(r, b))
  }

  ghost predicate AgentsOk(s: State, r: Rendering, seen: set<FeedAgent>) {
    && s.last.Keys == s.agents.Keys
    && forall grn | grn in s.agents :: s.last[grn] in seen && s.last[grn].grn == grn && SpecOf(r, s.last[grn]) == Ok(s.agents[grn])
  }

  ghost predicate CacheOk(s: State, r: Rendering, seen: set<FeedAgent>) {
    && s.reported.Keys == s.rendered.Keys && s.rendered.Keys <= s.agents.Keys
    && forall grn | grn in s.rendered ::
         && s.reported[grn] in seen && s.reported[grn].grn == grn && s.rendered[grn] == RenderedKey(s.reported[grn])
         && SpecOf(r, s.reported[grn]).Ok?
  }

  ghost predicate StateOk(s: State, r: Rendering, seen: set<FeedAgent>) {
    FeedOk(r, seen) && AgentsOk(s, r, seen) && CacheOk(s, r, seen)
  }

  lemma RenderKeeps(s: State, r: Rendering, seen: set<FeedAgent>, e: FeedAgent, write: Landing)
    requires AgentsOk(s, r, seen) && CacheOk(s, r, seen)
    ensures var next := Render(s, r, e, write).0; AgentsOk(next, r, seen + {e}) && CacheOk(next, r, seen + {e})
  {
    if SpecOf(r, e).Ok? {
      WrittenKeeps(s, r, seen, e, SpecOf(r, e).value);
    }
  }

  lemma WrittenKeeps(s: State, r: Rendering, seen: set<FeedAgent>, e: FeedAgent, spec: AgentSpec)
    requires AgentsOk(s, r, seen) && CacheOk(s, r, seen) && SpecOf(r, e) == Ok(spec)
    ensures var next := s.(agents := s.agents[e.grn := spec], last := s.last[e.grn := e]);
            AgentsOk(next, r, seen + {e}) && CacheOk(next, r, seen + {e})
  {
    var next := s.(agents := s.agents[e.grn := spec], last := s.last[e.grn := e]);
    forall grn | grn in next.agents
      ensures next.last[grn] in seen + {e} && next.last[grn].grn == grn && SpecOf(r, next.last[grn]) == Ok(next.agents[grn])
    {
      assert grn != e.grn ==> next.last[grn] == s.last[grn] && next.agents[grn] == s.agents[grn];
    }
  }

  lemma ReportKeeps(s: State, r: Rendering, seen: set<FeedAgent>, e: FeedAgent)
    requires CacheOk(s, r, seen) && e in seen && e.grn in s.agents && SpecOf(r, e).Ok?
    ensures CacheOk(s.(rendered := s.rendered[e.grn := RenderedKey(e)], reported := s.reported[e.grn := e]), r, seen)
  {
  }

  lemma ApplyKeeps(s: State, r: Rendering, seen: set<FeedAgent>, e: FeedAgent, write: Landing, reports: bool)
    requires StateOk(s, r, seen) && FeedOk(r, seen + {e})
    ensures StateOk(ApplyTo(s, r, e, write, reports), r, seen + {e})
  {
    RenderKeeps(s, r, seen, e, write);
    var (next, outcome) := Render(s, r, e, write);
    if outcome == Written {
      ReportKeeps(next, r, seen + {e}, e);
    }
  }

  /** An entry the cache knows is what the Agent says exactly when the key last written is the one cached. */
  lemma CachedIsRendered(s: State, r: Rendering, seen: set<FeedAgent>, e: FeedAgent)
    requires StateOk(s, r, seen) && e in seen && Cached(s, e)
    ensures e.grn in s.agents && e.grn in s.last
    ensures Ok(s.agents[e.grn]) == SpecOf(r, e) <==> RenderedKey(s.last[e.grn]) == s.rendered[e.grn]
  {
    var last := s.last[e.grn];
    assert SpecOf(r, s.reported[e.grn]) == SpecOf(r, e);
    if Ok(s.agents[e.grn]) == SpecOf(r, e) {
      assert last.revision == e.revision && last.stopped == e.stopped;
    }
  }

  /** An entry not passed over, and written, leaves the Agent saying what it does. */
  lemma AppliedIsRendered(s: State, r: Rendering, e: FeedAgent, write: Landing, reports: bool)
    requires !Cached(s, e) && Render(s, r, e, write).1 == Written
    ensures var next := ApplyTo(s, r, e, write, reports);
            e.grn in next.agents && Ok(next.agents[e.grn]) == SpecOf(r, e)
  {
  }

  // ---- Runs of the puller ----

  /** One entry of an answer, with what becomes of its write and its report; or the manager starts again,
      which forgets the cache and leaves the Agents. */
  datatype Turn = Entry(entry: FeedAgent, write: Landing, reports: bool) | Restart

  function After(r: Rendering, foreign: set<GRN>, turns: seq<Turn>): State {
    if turns == [] then State(map[], foreign, map[], map[], map[])
    else
      var before := After(r, foreign, turns[..|turns| - 1]);
      match turns[|turns| - 1]
      case Entry(e, write, reports) => ApplyTo(before, r, e, write, reports)
      case Restart => before.(rendered := map[], reported := map[])
  }

  /** What came of a turn for its agent. */
  datatype Done = PassedOver | NotWritten | WrittenOnly | WrittenAndReported

  function DoneIn(s: State, r: Rendering, t: Turn): Done
    requires t.Entry?
  {
    if Cached(s, t.entry) then PassedOver
    else if Render(s, r, t.entry, t.write).1 == Written then
      if t.reports then WrittenAndReported else WrittenOnly
    else if Render(s, r, t.entry, t.write).0 == s then NotWritten
    else WrittenOnly
  }

  ghost predicate DoneAt(r: Rendering, foreign: set<GRN>, turns: seq<Turn>, i: nat, grn: GRN, done: Done)
    requires i < |turns|
  {
    turns[i].Entry? && turns[i].entry.grn == grn && DoneIn(After(r, foreign, turns[..i]), r, turns[i]) == done
  }

  ghost predicate UnreportedAt(r: Rendering, foreign: set<GRN>, turns: seq<Turn>, i: nat, grn: GRN) {
    && i < |turns| && DoneAt(r, foreign, turns, i, grn, WrittenOnly)
    && forall k | i < k < |turns| :: !DoneAt(r, foreign, turns, k, grn, WrittenAndReported)
  }

  /** The agent was written, and not reported, after the last time it was written and reported. */
  ghost predicate Unreported(r: Rendering, foreign: set<GRN>, turns: seq<Turn>, grn: GRN) {
    exists i: nat :: UnreportedAt(r, foreign, turns, i, grn)
  }

  function Entries(turns: seq<Turn>): set<FeedAgent> {
    set t | t in turns && t.Entry? :: t.entry
  }

  /** An entry of some answer to some controller while the store ran. */
  ghost predicate Fed(run: seq<Store>, e: FeedAgent) {
    exists k: nat, operator, agent :: FedAt(run, k, operator, agent, e)
  }

  ghost predicate FedAt(run: seq<Store>, k: nat, operator: string, agent: GRN, e: FeedAgent) {
    && k < |run| && Owes(run[k], operator, agent) && |At(run[k].definitions, agent)| <= MAX_INT64
    && Showable(run[k], agent) && e == EntryOf(OwedOf(run[k], agent).revision)
  }

  lemma FedIsCanonical(run: seq<Store>, k: nat, operator: string, agent: GRN, e: FeedAgent)
    requires IsRun(run) && FedAt(run, k, operator, agent, e)
    ensures ParseRevision(e.revision).Ok? && e.grn == agent
  {
    RunIsOk(run, k);
    NumberedLast(run[k], agent);
    ParseUndoesString(OwedOf(run[k], agent).revision.definition.revision);
  }

  /** What a store run answers is such a feed. */
  lemma FedIsFeed(run: seq<Store>, r: Rendering, seen: set<FeedAgent>)
    requires IsRun(run) && forall e | e in seen :: Fed(run, e)
    ensures FeedOk(r, seen)
  {
    forall a | a in seen
      ensures ParseRevision(a.revision).Ok?
    {
      var k: nat, operator, agent :| FedAt(run, k, operator, agent, a);
      FedIsCanonical(run, k, operator, agent, a);
    }
    forall a, b | a in seen && b in seen && a.grn == b.grn && RenderedKey(a) == RenderedKey(b)
      ensures SpecOf(r, a) == SpecOf(r, b)
    {
      FedAlike(run, r, a, b);
    }
  }

  lemma FedAlike(run: seq<Store>, r: Rendering, a: FeedAgent, b: FeedAgent)
    requires IsRun(run) && Fed(run, a) && Fed(run, b) && a.grn == b.grn && RenderedKey(a) == RenderedKey(b)
    ensures SpecOf(r, a) == SpecOf(r, b)
  {
    var i: nat, x, agent :| FedAt(run, i, x, agent, a);
    var j: nat, y, other :| FedAt(run, j, y, other, b);
    FedIsCanonical(run, i, x, agent, a);
    FedIsCanonical(run, j, y, other, b);
    if i <= j {
      KeyDecidesSpec(run, i, j, agent, r);
    } else {
      KeyDecidesSpec(run, j, i, agent, r);
    }
  }

  lemma AfterOne(r: Rendering, foreign: set<GRN>, turns: seq<Turn>, t: Turn)
    ensures After(r, foreign, turns + [t]) ==
              match t
              case Entry(e, write, reports) => ApplyTo(After(r, foreign, turns), r, e, write, reports)
              case Restart => After(r, foreign, turns).(rendered := map[], reported := map[])
  {
    assert (turns + [t])[..|turns|] == turns;
  }

  lemma EntriesOf(turns: seq<Turn>, t: Turn)
    ensures Entries(turns + [t]) == Entries(turns) + (if t.Entry? then {t.entry} else {})
  {
  }

  lemma {:induction false} TurnsKeep(run: seq<Store>, r: Rendering, foreign: set<GRN>, turns: seq<Turn>)
    requires IsRun(run) && forall e | e in Entries(turns) :: Fed(run, e)
    ensures StateOk(After(r, foreign, turns), r, Entries(turns))
  {
    FedIsFeed(run, r, Entries(turns));
    if turns != [] {
      var before, t := turns[..|turns| - 1], turns[|turns| - 1];
      assert turns == before + [t];
      EntriesOf(before, t);
      AfterOne(r, foreign, before, t);
      TurnsKeep(run, r, foreign, before);
      if t.Entry? {
        ApplyKeeps(After(r, foreign, before), r, Entries(before), t.entry, t.write, t.reports);
      }
    }
  }

  lemma DoneBefore(r: Rendering, foreign: set<GRN>, turns: seq<Turn>, t: Turn, grn: GRN)
    ensures var done := if t.Entry? && t.entry.grn == grn then DoneIn(After(r, foreign, turns), r, t) else PassedOver;
            Unreported(r, foreign, turns + [t], grn) <==>
              done == WrittenOnly || (done != WrittenAndReported && Unreported(r, foreign, turns, grn))
  {
    var longer, n := turns + [t], |turns|;
    assert longer[..n] == turns && longer[n] == t;
    assert forall i: nat | i < n :: longer[..i] == turns[..i] && longer[i] == turns[i];
    assert forall i: nat, done | i < n :: DoneAt(r, foreign, longer, i, grn, done) <==> DoneAt(r, foreign, turns, i, grn, done);
    if DoneAt(r, foreign, longer, n, grn, WrittenOnly) {
      assert UnreportedAt(r, foreign, longer, n, grn);
    }
    if !DoneAt(r, foreign, longer, n, grn, WrittenAndReported) && Unreported(r, foreign, turns, grn) {
      var i: nat :| UnreportedAt(r, foreign, turns, i, grn);
      assert UnreportedAt(r, foreign, longer, i, grn);
    }
    if Unreported(r, foreign, longer, grn) {
      var i: nat :| UnreportedAt(r, foreign, longer, i, grn);
      assert i < n ==> UnreportedAt(r, foreign, turns, i, grn);
    }
  }

  /** What a turn leaves of an agent's key and of what was last written of it. */
  lemma LastAfter(s: State, r: Rendering, t: Turn, grn: GRN)
    requires t.Entry?
    requires grn in s.rendered ==> grn in s.last
    ensures var next := ApplyTo(s, r, t.entry, t.write, t.reports);
            var done := if t.entry.grn == grn then DoneIn(s, r, t) else PassedOver;
            && (grn in next.rendered ==> grn in next.last)
            && (grn in next.rendered && done == WrittenAndReported ==> RenderedKey(next.last[grn]) == next.rendered[grn])
            && (grn in next.rendered && done == WrittenOnly ==> RenderedKey(next.last[grn]) != next.rendered[grn])
            && (done in {PassedOver, NotWritten} ==>
                  && (grn in next.rendered <==> grn in s.rendered)
                  && (grn in s.rendered ==> next.rendered[grn] == s.rendered[grn] && next.last[grn] == s.last[grn]))
            && (grn in next.rendered && done != WrittenAndReported ==> grn in s.rendered)
  {
  }

  /** For an agent the cache knows, its key is the one last written exactly when no write went unreported
      since. */
  lemma {:induction false} LastIsReported(r: Rendering, foreign: set<GRN>, turns: seq<Turn>, grn: GRN)
    requires grn in After(r, foreign, turns).rendered
    ensures grn in After(r, foreign, turns).last
    ensures Unreported(r, foreign, turns, grn) <==> RenderedKey(After(r, foreign, turns).last[grn]) != After(r, foreign, turns).rendered[grn]
  {
    var before, t := turns[..|turns| - 1], turns[|turns| - 1];
    var s := After(r, foreign, before);
    assert turns == before + [t];
    DoneBefore(r, foreign, before, t, grn);
    if grn in s.rendered {
      LastIsReported(r, foreign, before, grn);
    }
    LastAfter(s, r, t, grn);
  }

  lemma FedKeeps(run: seq<Store>, r: Rendering, foreign: set<GRN>, turns: seq<Turn>, e: FeedAgent)
    requires IsRun(run) && Fed(run, e) && forall x | x in Entries(turns) :: Fed(run, x)
    ensures StateOk(After(r, foreign, turns), r, Entries(turns) + {e})
  {
    TurnsKeep(run, r, foreign, turns);
    FedIsFeed(run, r, Entries(turns) + {e});
  }

  /** In every run of the puller on what a store run answers: an entry passed over is what the Agent says
      exactly when the agent was not written, without being reported, after it was last reported. */
  lemma CacheIsRightIffReported(run: seq<Store>, r: Rendering, foreign: set<GRN>, turns: seq<Turn>, e: FeedAgent)
    requires IsRun(run) && Fed(run, e) && forall x | x in Entries(turns) :: Fed(run, x)
    requires Cached(After(r, foreign, turns), e)
    ensures var s := After(r, foreign, turns);
            && e.grn in s.agents
            && (Ok(s.agents[e.grn]) == SpecOf(r, e) <==> !Unreported(r, foreign, turns, e.grn))
  {
    var s, seen := After(r, foreign, turns), Entries(turns);
    FedKeeps(run, r, foreign, turns, e);
    CachedIsRendered(s, r, seen + {e}, e);
    LastIsReported(r, foreign, turns, e.grn);
  }

  /** A stop whose render could not be reported, and a start after it: the cache still has the running
      revision's key, so the start is passed over, on this answer and every later one, and the Agent is
      kept stopped. */
  lemma UnreportedStopSticks(r: Rendering, e: FeedAgent)
    requires SpecOf(r, e).Ok? && !e.stopped
    ensures var stop := e.(stopped := true);
            var stopped := After(r, {}, [Entry(e, Lands, true), Entry(stop, Lands, false)]);
            var started := After(r, {}, [Entry(e, Lands, true), Entry(stop, Lands, false), Entry(e, Lands, true)]);
            && started == stopped
            && e.grn in started.agents && started.agents[e.grn].stopped
            && Ok(started.agents[e.grn]) != SpecOf(r, e)
  {
    var stop := e.(stopped := true);
    assert |RenderedKey(stop)| != |RenderedKey(e)|;
    var one, two := [Entry(e, Lands, true)], [Entry(e, Lands, true), Entry(stop, Lands, false)];
    var three := two + [Entry(e, Lands, true)];
    assert three == [Entry(e, Lands, true), Entry(stop, Lands, false), Entry(e, Lands, true)] && two == one + [Entry(stop, Lands, false)];
    assert one == [] + [Entry(e, Lands, true)];
    AfterOne(r, {}, [], Entry(e, Lands, true));
    AfterOne(r, {}, one, Entry(stop, Lands, false));
    AfterOne(r, {}, two, Entry(e, Lands, true));
    assert After(r, {}, one).rendered == map[e.grn := RenderedKey(e)];
    assert SpecOf(r, stop) == Ok(SpecOf(r, e).value.(stopped := true));
  }
}
