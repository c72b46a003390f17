/** What an entry of the feed carries, what it renders to, and what a render writes, field by field. */
module PullerMeaning {
  import opened Options
  import opened Domain
  import opened Revisions
  import opened Puller

  /** An entry carries what the page shows of the agent, its revision in decimal and its assignment's epoch. */
  lemma EntrySays(d: DesiredRevision)
    requires d.definition.assignment.Some?
    ensures EntryOf(d) == FeedAgent(d.definition.agent, String(d.definition.revision), d.definition.assignment.value.epoch,
                                    d.definition.profile, d.settings, d.definition.config, d.stopped, d.recovery)
  {
  }

  ghost predicate NamesNoModel(m: Model) {
    m == Model("", "", "", "", None)
  }

  /** The reference reads as a key, or there is none to read. */
  ghost predicate Reads(r: Rendering, ref: string, key: Option<SecretKey>) {
    if key.Some? then r.secretKey(ref) == key else ref == ""
  }

  ghost predicate EmbeddingRenders(r: Rendering, e: Option<Embedding>, spec: Option<EmbeddingSpec>) {
    && (e.Some? <==> spec.Some?)
    && (e.Some? ==>
          && e.value.baseURL != "" && e.value.name != ""
          && spec.value.baseURL == e.value.baseURL && spec.value.name == e.value.name
          && (e.value.apiKey == "" <==> spec.value.apiKey.None?) && Reads(r, e.value.apiKey, spec.value.apiKey))
  }

  /** A model renders to its own provider, base URL, name and key, and to its own embedding, which only the
      mock may lack; and none renders to none. */
  ghost predicate ModelRenders(r: Rendering, m: Model, spec: Option<ModelSpec>) {
    if NamesNoModel(m) then spec.None?
    else
      && spec.Some? && m.provider != "" && m.baseURL != "" && m.name != ""
      && spec.value.provider == m.provider && spec.value.baseURL == m.baseURL && spec.value.name == m.name
      && r.secretKey(m.apiKey) == Some(spec.value.apiKey)
      && (m.embedding.None? ==> m.provider == "mock") && EmbeddingRenders(r, m.embedding, spec.value.embedding)
  }

  lemma ModelSays(r: Rendering, m: Model)
    ensures forall spec :: ModelOf(r, m) == Ok(spec) <==> ModelRenders(r, m, spec)
  {
  }

  ghost predicate SizeRenders(r: Rendering, size: Option<string>, quantity: Option<int>) {
    && (size.Some? <==> quantity.Some?)
    && (size.Some? ==> r.quantity(size.value) == quantity && quantity.value > 0)
  }

  /** What a spec says is what the entry does: the manager's image, the settings of its profile, its model, ego
      and tools, and the identity, epoch, revision and stop it carries. */
  ghost predicate Renders(r: Rendering, e: FeedAgent, spec: AgentSpec) {
    && e.grn != "" && spec.identity == e.grn && spec.epoch == e.epoch && spec.revision == e.revision && spec.stopped == e.stopped
    && spec.image == r.image && spec.resources == e.settings.resources && spec.storageClassName == e.settings.storageClassName
    && r.quantity(e.settings.storageSize) == Some(spec.storageSize)
    && SizeRenders(r, e.settings.workspaceStorageSize, spec.workspaceStorageSize)
    && spec.ego == e.config.ego && spec.tools == e.config.tools && ModelRenders(r, e.config.model, spec.model)
  }

  /** An entry renders to the one spec that says what it does, and to none where there is none. */
  lemma SpecSays(r: Rendering, e: FeedAgent)
    ensures forall spec :: SpecOf(r, e) == Ok(spec) <==> Renders(r, e, spec)
  {
    ModelSays(r, e.config.model);
    forall spec | Renders(r, e, spec)
      ensures SpecOf(r, e) == Ok(spec)
    {
      assert ModelOf(r, e.config.model) == Ok(spec.model);
      assert WorkspaceOf(r, e.settings.workspaceStorageSize) == Ok(spec.workspaceStorageSize);
    }
    if SpecOf(r, e).Ok? {
      assert Renders(r, e, SpecOf(r, e).value);
    }
  }

  /** A render writes the agent's spec and no other's: none that cannot be rendered, none of an Agent a person
      made, and where its write lands, answered or not, the spec the entry renders to. */
  lemma RenderSays(s: State, r: Rendering, e: FeedAgent, write: Landing)
    ensures var (t, outcome) := Render(s, r, e, write);
            && t.foreign == s.foreign && t.rendered == s.rendered
            && (forall grn | grn != e.grn :: (grn in t.agents <==> grn in s.agents) && (grn in s.agents ==> t.agents[grn] == s.agents[grn]))
            && ((forall spec :: !Renders(r, e, spec)) ==> outcome == Malformed && t.agents == s.agents)
            && (forall spec | Renders(r, e, spec) ::
                  if e.grn in s.foreign then outcome == NotControlSource && t.agents == s.agents
                  else
                    && (outcome == Written <==> write == Lands || (e.grn in s.agents && s.agents[e.grn] == spec))
                    && (outcome != Written ==> outcome == WriteFailed)
                    && (write == Fails ==> t.agents == s.agents)
                    && (write != Fails ==> e.grn in t.agents && t.agents[e.grn] == spec))
  {
    SpecSays(r, e);
  }

  /** An entry is passed over where its key is the one cached; and its key is cached where it was written and
      reported, and not otherwise. */
  lemma ApplySays(s: State, r: Rendering, e: FeedAgent, write: Landing, reports: bool)
    ensures var key := if e.stopped then e.revision + "/stopped" else e.revision;
            var t := ApplyTo(s, r, e, write, reports);
            if e.grn in s.rendered && s.rendered[e.grn] == key then t == s
            else
              && t.agents == Render(s, r, e, write).0.agents
              && t.rendered == if Render(s, r, e, write).1 == Written && reports then s.rendered[e.grn := key] else s.rendered
  {
  }
}
