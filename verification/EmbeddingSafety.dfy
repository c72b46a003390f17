/**
  An agent's embedding endpoint, once a revision names one. A configure request is checked against the
  latest revision and stored later, in two steps of the store, so others come between.
 */
module EmbeddingSafety {
  import opened Options
  import opened Domain
  import opened Store
  import opened StoreFrames
  import opened StoreSafety

  datatype ConfigureInput = ConfigureInput(
    request: RequestKey, binding: Binding, agent: GRN, expectedRevision: Revision, profile: ProfileRef, config: Configuration)

  // ---- The two steps ----

  /** Refuses a request based on the latest revision that drops or changes the endpoint it names. A
      request based on another revision, or for an agent not in its organization, is let through. */
  function CheckEmbedding(s: Store, c: ConfigureInput): Result<(), Error> {
    match GetDefinition(s, c.agent)
    case Err(_) => Ok(())
    case Ok(latest) =>
      if latest.organization != c.request.organization || latest.revision != c.expectedRevision
         || latest.config.model.embedding.None?
      then Ok(())
      else if SameEndpoint(c.config.model.embedding, latest.config.model.embedding.value) then Ok(())
      else Err(EmbeddingImmutable)
  }

  function RequestOf(c: ConfigureInput): Request {
    Request(c.request, c.binding, c.agent, Unset)
  }

  function DefinitionOf(c: ConfigureInput): Definition {
    Definition(c.agent, c.request.organization, c.expectedRevision + 1, c.profile, c.config, Some(c.binding.assignment))
  }

  function Stored(s: Store, c: ConfigureInput): Store {
    Configure(s, RequestOf(c), DefinitionOf(c)).0
  }

  function Count(s: Store, agent: GRN): nat {
    |At(s.definitions, agent)|
  }

  // ---- The promise ----

  function EmbeddingAt(revisions: seq<Definition>, i: nat): Option<Embedding>
    requires i < |revisions|
  {
    revisions[i].config.model.embedding
  }

  ghost predicate EndpointKept(revisions: seq<Definition>) {
    forall i, j | 0 <= i <= j < |revisions| && EmbeddingAt(revisions, i).Some? ::
      && EmbeddingAt(revisions, j).Some?
      && EmbeddingAt(revisions, j).value.baseURL == EmbeddingAt(revisions, i).value.baseURL
      && EmbeddingAt(revisions, j).value.name == EmbeddingAt(revisions, i).value.name
  }

  /** Once a revision names an embedding, every later one of the agent names the same endpoint. */
  ghost predicate EmbeddingsKept(s: Store) {
    forall agent | agent in s.definitions :: EndpointKept(s.definitions[agent])
  }

  /** Storing the request could not break it: its revision is taken, or it is checked as it stands. */
  ghost predicate Guarded(s: Store, c: ConfigureInput) {
    c.expectedRevision < Count(s, c.agent) || (c.expectedRevision == Count(s, c.agent) && CheckEmbedding(s, c).Ok?)
  }

  lemma ExtendKeeps(revisions: seq<Definition>, d: Definition)
    requires EndpointKept(revisions)
    requires revisions != [] && Last(revisions).config.model.embedding.Some? ==>
               SameEndpoint(d.config.model.embedding, Last(revisions).config.model.embedding.value)
    ensures EndpointKept(revisions + [d])
  {
    var next := revisions + [d];
    forall i, j | 0 <= i <= j < |next| && EmbeddingAt(next, i).Some?
      ensures SameEndpoint(EmbeddingAt(next, j), EmbeddingAt(next, i).value)
    {
      if j < |revisions| {
        assert SameEndpoint(EmbeddingAt(revisions, j), EmbeddingAt(revisions, i).value);
      } else if i < |revisions| {
        assert SameEndpoint(EmbeddingAt(revisions, |revisions| - 1), EmbeddingAt(revisions, i).value);
      }
    }
  }

  lemma StoredKeeps(s: Store, c: ConfigureInput)
    requires RevisionsOk(s.profiles, s.definitions) && EmbeddingsKept(s)
    requires c.expectedRevision == Count(s, c.agent) ==> CheckEmbedding(s, c).Ok?
    ensures EmbeddingsKept(Stored(s, c))
  {
    var t := Stored(s, c);
    if t.definitions != s.definitions {
      var revisions := s.definitions[c.agent];
      assert NumberedOk(s.profiles, c.agent, revisions);
      assert t.definitions == s.definitions[c.agent := revisions + [DefinitionOf(c)]];
      ExtendKeeps(revisions, DefinitionOf(c));
    }
  }

  // ---- Other operations ----

  /** Beside a configure, only a creation stores a revision, and an agent's first. */
  lemma OthersKeep(s: Store, op: Op, agent: GRN)
    requires Permitted(s, op) && !op.OpConfigure?
    ensures At(Apply(s, op).definitions, agent) == At(s.definitions, agent) || (Count(s, agent) == 0 && Count(Apply(s, op), agent) == 1)
    ensures EmbeddingsKept(s) ==> EmbeddingsKept(Apply(s, op))
  {
    match op {
      case OpRegisterCreation(key, d) => RegisterAdds(s, key, d, agent);
      case _ => SameDefinitions(s, op);
    }
  }

  lemma SameDefinitions(s: Store, op: Op)
    requires Permitted(s, op) && !op.OpConfigure? && !op.OpRegisterCreation?
    ensures Apply(s, op).definitions == s.definitions
  {
    ApplyFrame(s, op);
    FrameSays(op, s, Apply(s, op));
  }

  lemma RegisterAdds(s: Store, key: RequestKey, d: Definition, agent: GRN)
    requires d.revision == 1 && d.assignment.Some?
    ensures var s' := RegisterCreation(s, key, d).0;
            && (At(s'.definitions, agent) == At(s.definitions, agent) || (Count(s, agent) == 0 && Count(s', agent) == 1))
            && (EmbeddingsKept(s) ==> EmbeddingsKept(s'))
  {
  }

  // ---- Interleaved requests ----

  /** The store, and the requests that passed their check and are yet to be stored. */
  datatype Site = Site(store: Store, checked: map<nat, ConfigureInput>)

  ghost predicate CheckStep(v: Site, v': Site, id: nat, c: ConfigureInput) {
    && id !in v.checked && Published(v.store, c.request.organization, c.profile) && CheckEmbedding(v.store, c).Ok?
    && v' == v.(checked := v.checked[id := c])
  }

  /** The request is not ahead of the agent when it is checked. */
  ghost predicate NotAhead(s: Store, c: ConfigureInput) {
    c.expectedRevision <= Count(s, c.agent)
  }

  ghost predicate StoreStep(v: Site, v': Site, id: nat) {
    && id in v.checked && v' == Site(Stored(v.store, v.checked[id]), v.checked - {id})
  }

  ghost predicate Next(v: Site, v': Site) {
    || (exists id, c :: CheckStep(v, v', id, c) && NotAhead(v.store, c))
    || (exists id :: StoreStep(v, v', id))
    || (exists id :: id in v.checked && v' == v.(checked := v.checked - {id}))
    || (exists op :: Permitted(v.store, op) && !op.OpConfigure? && v' == v.(store := Apply(v.store, op)))
  }

  ghost predicate StepAt(run: seq<Site>, i: nat)
    requires i < |run| - 1
  {
    Next(run[i], run[i + 1])
  }

  ghost predicate IsRun(run: seq<Site>) {
    && run != [] && run[0] == Site(EMPTY, map[])
    && forall i | 0 <= i < |run| - 1 :: StepAt(run, i)
  }

  ghost predicate AllGuarded(v: Site) {
    && StoreOk(v.store) && EmbeddingsKept(v.store)
    && forall id | id in v.checked ::
         Guarded(v.store, v.checked[id]) && Published(v.store, v.checked[id].request.organization, v.checked[id].profile)
  }

  lemma PublishedLasts(s: Store, op: Op, organization: string, ref: ProfileRef)
    requires Permitted(s, op) && Published(s, organization, ref)
    ensures Published(Apply(s, op), organization, ref)
  {
    if !op.OpPublish? && !op.OpPublishVersion? {
      SameProfiles(s, op);
    }
  }

  lemma SameProfiles(s: Store, op: Op)
    requires Permitted(s, op) && !op.OpPublish? && !op.OpPublishVersion?
    ensures Apply(s, op).profiles == s.profiles
  {
    ApplyFrame(s, op);
    FrameSays(op, s, Apply(s, op));
  }

  lemma OtherKeepsGuard(s: Store, op: Op, c: ConfigureInput)
    requires Permitted(s, op) && !op.OpConfigure? && Guarded(s, c)
    ensures Guarded(Apply(s, op), c)
  {
    OthersKeep(s, op, c.agent);
  }

  /** A request stored meanwhile takes the revision another was to take, or leaves the agent alone. */
  lemma StoredKeepsGuard(s: Store, other: ConfigureInput, c: ConfigureInput)
    requires Guarded(s, c)
    ensures Guarded(Stored(s, other), c)
  {
    StoredGrows(s, other, c.agent);
  }

  lemma StoredGrows(s: Store, c: ConfigureInput, agent: GRN)
    ensures var t := Stored(s, c);
            || At(t.definitions, agent) == At(s.definitions, agent)
            || (agent == c.agent && c.expectedRevision == Count(s, agent)
                && At(t.definitions, agent) == At(s.definitions, agent) + [DefinitionOf(c)])
  {
    ConfigureParts(s, RequestOf(c), DefinitionOf(c));
  }

  lemma StoreStepKeeps(v: Site, v': Site, id: nat)
    requires AllGuarded(v) && StoreStep(v, v', id)
    ensures AllGuarded(v')
  {
    var c := v.checked[id];
    StoredKeeps(v.store, c);
    ApplyKeeps(v.store, OpConfigure(RequestOf(c), DefinitionOf(c)));
    forall k | k in v'.checked
      ensures Guarded(v'.store, v'.checked[k]) && Published(v'.store, v'.checked[k].request.organization, v'.checked[k].profile)
    {
      StoredKeepsGuard(v.store, c, v.checked[k]);
      SameProfiles(v.store, OpConfigure(RequestOf(c), DefinitionOf(c)));
    }
  }

  lemma OtherStepKeeps(v: Site, v': Site, op: Op)
    requires AllGuarded(v) && Permitted(v.store, op) && !op.OpConfigure? && v' == v.(store := Apply(v.store, op))
    ensures AllGuarded(v')
  {
    ApplyKeeps(v.store, op);
    OthersKeep(v.store, op, "");
    forall k | k in v'.checked
      ensures Guarded(v'.store, v'.checked[k]) && Published(v'.store, v'.checked[k].request.organization, v'.checked[k].profile)
    {
      OtherKeepsGuard(v.store, op, v.checked[k]);
      PublishedLasts(v.store, op, v.checked[k].request.organization, v.checked[k].profile);
    }
  }

  lemma NextKeeps(v: Site, v': Site)
    requires AllGuarded(v) && Next(v, v')
    ensures AllGuarded(v')
  {
    if id :| StoreStep(v, v', id) {
      StoreStepKeeps(v, v', id);
    } else if op :| Permitted(v.store, op) && !op.OpConfigure? && v' == v.(store := Apply(v.store, op)) {
      OtherStepKeeps(v, v', op);
    }
  }

  /** In every interleaving of configure requests with one another and with everything else, where none
      is ahead of its agent when it is checked, an agent keeps its embedding endpoint. */
  lemma {:induction false} RunKeepsEmbeddings(run: seq<Site>, i: nat)
    requires IsRun(run) && i < |run|
    ensures AllGuarded(run[i])
  {
    if i == 0 {
      EmptyOk();
    } else {
      RunKeepsEmbeddings(run, i - 1);
      assert StepAt(run, i - 1);
      NextKeeps(run[i - 1], run[i]);
    }
  }

  /** And where configure requests are served one at a time, each checked on the store it is stored to,
      it keeps it whatever revision they expect: one ahead is stored as stale. */
  lemma SerializedKeeps(s: Store, c: ConfigureInput)
    requires StoreOk(s) && EmbeddingsKept(s) && CheckEmbedding(s, c).Ok?
    ensures EmbeddingsKept(Stored(s, c))
  {
    StoredKeeps(s, c);
  }
}
