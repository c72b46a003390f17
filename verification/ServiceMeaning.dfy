/** What the control service decides of a request, in the stored entries' own fields. */
module ServiceMeaning {
  import opened Options
  import opened Domain
  import opened Store
  import Spec = Store
  import opened StoreSafety
  import opened Memory
  import opened EmbeddingSafety
  import opened Service
  import StoreMeaning

  // ---- Configurations ----

  ghost predicate NamesNoModel(c: Configuration) {
    c.model == Model("", "", "", "", None)
  }

  /** A configuration is refused for a malformed reference before anything else, for a missing or partial
      embedding of a model that needs one, and for a malformed reference of the embedding last. */
  lemma CheckSays(refs: string -> bool, c: Configuration)
    ensures var e := c.model.embedding;
            && (NamesNoModel(c) ==> CheckConfiguration(refs, c) == Ok(()))
            && (!NamesNoModel(c) && !refs(c.model.apiKey) ==> CheckConfiguration(refs, c) == Err(InvalidSecretRef))
            && (!NamesNoModel(c) && refs(c.model.apiKey) && e.None? ==>
                  CheckConfiguration(refs, c) == if c.model.provider == "mock" then Ok(()) else Err(EmbeddingRequired))
            && (!NamesNoModel(c) && refs(c.model.apiKey) && e.Some? ==>
                  CheckConfiguration(refs, c) == if e.value.baseURL == "" || e.value.name == "" then Err(EmbeddingRequired)
                                                 else if e.value.apiKey == "" || refs(e.value.apiKey) then Ok(()) else Err(InvalidSecretRef))
  {
  }

  /** A configure request is refused for its embedding exactly where it is based on the latest revision of an
      agent of its organization, and that names an endpoint the request drops or changes. */
  lemma EmbeddingCheckSays(s: Store, c: ConfigureInput)
    ensures var revisions, asked := At(s.definitions, c.agent), c.config.model.embedding;
            CheckEmbedding(s, c) ==
              if revisions != []
                 && revisions[|revisions| - 1].organization == c.request.organization
                 && revisions[|revisions| - 1].revision == c.expectedRevision
                 && revisions[|revisions| - 1].config.model.embedding.Some?
                 && var was := revisions[|revisions| - 1].config.model.embedding.value;
                    asked.None? || asked.value.baseURL != was.baseURL || asked.value.name != was.name
              then Err(EmbeddingImmutable) else Ok(())
  {
  }

  /** The revision a configure request stores has the configuration and profile it gave, one past the one it
      expected, assigned as its binding was. */
  lemma StoredSays(s: Store, c: ConfigureInput)
    requires c.request !in s.requests && At(s.definitions, c.agent) != []
    requires s.definitions[c.agent][0].organization == c.request.organization
    ensures var t, n := Stored(s, c), |s.definitions[c.agent]|;
            var d := Definition(c.agent, c.request.organization, n + 1, c.profile, c.config, Some(c.binding.assignment));
            if c.expectedRevision != n then t == s.(requests := s.requests[c.request := Request(c.request, c.binding, c.agent, Stale)])
            else
              && t.requests == s.requests[c.request := Request(c.request, c.binding, c.agent, Applied(n + 1))]
              && t.definitions == s.definitions[c.agent := s.definitions[c.agent] + [d]] && t.position == s.position + 1
  {
    StoreMeaning.ConfigureSays(s, RequestOf(c), DefinitionOf(c));
  }

  // ---- Stops ----

  /** The stop a request records is of its agent, under its key and binding, and of the activation read. */
  lemma StopStores(s: Store, agent: GRN, key: RequestKey, binding: Binding, latest: string)
    requires key !in s.stops && !StopStands(s, agent)
    ensures var t := Spec.RecordStop(s, StopOf(agent, key, binding, latest)).0;
            && key in t.stops
            && var stop := t.stops[key];
            && stop.agent == agent && stop.key == key && stop.binding == binding && stop.activationID == latest
            && !stop.deactivated && stop.start.None? && StopStands(t, agent)
  {
    StandsIsStopped(s, agent);
  }

  // ---- Creations ----

  ghost predicate MayCreate(s: Store, refs: string -> bool, c: CreateInput, template: Option<Configuration>) {
    template.Some? && CheckConfiguration(refs, template.value).Ok? && Published(s, c.request.organization, c.profile)
  }

  /** A creation that ended is answered, and changes nothing: as it failed, or as it was registered where garam
      registers the same, with an error otherwise. */
  lemma CreateAgainSays(s: Store, refs: string -> bool, c: CreateInput, template: Option<Configuration>, garam: Registration)
    requires MayCreate(s, refs, c, template) && c.request in s.creations && s.creations[c.request].outcome != Pending
    ensures var (t, answer) := CreateSpec(s, refs, c, template, garam);
            var was := s.creations[c.request];
            && t == s
            && answer ==
                 if was.binding != c.binding || was.controller != c.controller || was.template != c.template || was.profile != c.profile
                 then Err(RequestReused)
                 else if was.outcome.Failed? || garam == RegisteredAs(was.outcome.agent, was.outcome.epoch) then Ok((was, false))
                 else if garam == Undecided then Err(RegistrationUndecided)
                 else if garam.RegisteredAs? || garam.conflict then Err(AssignmentMoved) else Err(RegistrationDenied)
  {
  }

  /** A creation asked for the first time, or again while pending, is stored as pending; garam's refusal ends it
      as failed for the reason given, and garam's answer ends it as registered with the agent's first revision. */
  lemma CreateSays(s: Store, refs: string -> bool, c: CreateInput, template: Option<Configuration>, garam: Registration)
    requires MayCreate(s, refs, c, template)
    requires c.request in s.creations ==>
               s.creations[c.request] == Creation(c.request, c.binding, c.controller, c.template, c.profile, Pending)
    ensures var (t, answer) := CreateSpec(s, refs, c, template, garam);
            && c.request in t.creations
            && t.creations[c.request].(outcome := Pending) == Creation(c.request, c.binding, c.controller, c.template, c.profile, Pending)
            && match garam
               case Undecided => answer == Err(RegistrationUndecided) && t.creations[c.request].outcome == Pending
               case RegistrationRefused(reason, conflict) =>
                 t.creations[c.request].outcome == Failed(reason, conflict) && answer == Ok((t.creations[c.request], false))
               case RegisteredAs(agent, epoch) =>
                 if At(s.definitions, agent) != [] then answer == Err(StaleRevision) && t.creations[c.request].outcome == Pending
                 else
                   && t.creations[c.request].outcome == Registered(agent, epoch) && answer == Ok((t.creations[c.request], true))
                   && agent in t.definitions
                   && t.definitions[agent] == [Definition(agent, c.request.organization, 1, c.profile, template.value,
                                                          Some(Assignment(c.controller, epoch)))]
  {
  }

  lemma CreateRefusedSays(s: Store, refs: string -> bool, c: CreateInput, template: Option<Configuration>, garam: Registration)
    requires !MayCreate(s, refs, c, template)
    ensures CreateSpec(s, refs, c, template, garam) ==
              (s, Err(if template.Some? && CheckConfiguration(refs, template.value).Err? then CheckConfiguration(refs, template.value).error
                      else NotFound))
  {
  }

  // ---- Activations ----

  ghost predicate StopStands(s: Store, agent: GRN) {
    exists key | key in s.stops :: s.stops[key].agent == agent && s.stops[key].start.None?
  }

  /** The runtime's last report says the revision took effect under the agent's latest activation. */
  ghost predicate ReportedEffective(s: Store, agent: GRN, revision: Revision) {
    && agent in s.applied && agent in s.latest && s.latest[agent] != ""
    && s.applied[agent].activationID == s.latest[agent] && s.applied[agent].revision == revision
  }

  /** The reference is that of the one request the revision came from: the creation for the first, and a
      configure request after. */
  ghost predicate ReferenceOf(s: Store, agent: GRN, revision: Revision, reference: string) {
    if revision == 1 then
      exists key | key in s.creations :: IsCreationOf(s, agent, key) && s.creations[key].binding.operationRef == reference
    else
      exists key | key in s.requests :: IsRequestOf(s, agent, revision, key) && s.requests[key].binding.operationRef == reference
  }

  ghost predicate IsCreationOf(s: Store, agent: GRN, key: RequestKey) {
    key in s.creations && s.creations[key].outcome.Registered? && s.creations[key].outcome.agent == agent
  }

  ghost predicate IsRequestOf(s: Store, agent: GRN, revision: Revision, key: RequestKey) {
    key in s.requests && s.requests[key].agent == agent && s.requests[key].outcome == Applied(revision)
  }

  lemma StandsIsStopped(s: Store, agent: GRN)
    ensures StopStands(s, agent) <==> IsStopped(s, agent)
  {
    assert forall key :: HoldsAgent(s, agent, key) <==> key in s.stops && s.stops[key].agent == agent && s.stops[key].start.None?;
  }

  lemma OneReference(s: Store, agent: GRN, revision: Revision, a: string, b: string)
    requires StoreOk(s) && ReferenceOf(s, agent, revision, a) && ReferenceOf(s, agent, revision, b)
    ensures a == b
  {
    ReferenceIsOne(s, agent, revision);
    if revision == 1 {
      var k :| k in s.creations && IsCreationOf(s, agent, k) && s.creations[k].binding.operationRef == a;
      var l :| l in s.creations && IsCreationOf(s, agent, l) && s.creations[l].binding.operationRef == b;
      assert CreatedBy(s, agent, k) && CreatedBy(s, agent, l);
    } else {
      var k :| k in s.requests && IsRequestOf(s, agent, revision, k) && s.requests[k].binding.operationRef == a;
      var l :| l in s.requests && IsRequestOf(s, agent, revision, l) && s.requests[l].binding.operationRef == b;
      assert AppliedBy(s, agent, revision, k) && AppliedBy(s, agent, revision, l);
    }
  }

  lemma OperationSays(s: Store, agent: GRN, revision: Revision, anchor: string)
    requires StoreOk(s) && 1 <= revision <= Count(s, agent)
    requires anchor == if agent in s.latest then s.latest[agent] else ""
    ensures OperationReference(s, agent, revision, anchor).Ok?
    ensures var reference := OperationReference(s, agent, revision, anchor).value;
            if ReportedEffective(s, agent, revision) then reference == "" else ReferenceOf(s, agent, revision, reference)
  {
    ReferenceIsFound(s, agent, revision, anchor);
    if !ReportedEffective(s, agent, revision) {
      if revision == 1 {
        var key :| CreatedBy(s, agent, key) && Spec.CreationOf(s, agent) == Ok(s.creations[key]);
        assert IsCreationOf(s, agent, key);
      } else {
        var key :| AppliedBy(s, agent, revision, key) && Spec.ConfigureReference(s, agent, revision) == Ok(s.requests[key].binding.operationRef);
        assert IsRequestOf(s, agent, revision, key);
      }
    }
  }

  /** An activation newly stored replaces the agent's latest, and carries the reference of the request its
      revision came from, unless the runtime's last report says that very revision took effect under the
      latest, and then none. */
  lemma PrepareStores(s: Store, agent: GRN, request: ActivationRequest)
    requires Sound(s) && !StopStands(s, agent) && request.requestID !in In(s.activations, agent)
    requires 1 <= request.configRevision <= Count(s, agent)
    ensures var (t, answer) := PrepareActivationSpec(s, agent, request);
            && answer.Ok?
            && var a := answer.value;
            && a.agent == agent && a.request == request && a.activationID == ""
            && a.replacesActivationID == (if agent in s.latest then s.latest[agent] else "")
            && (if ReportedEffective(s, agent, request.configRevision) then a.operationRef == ""
                else ReferenceOf(s, agent, request.configRevision, a.operationRef))
            && t == s.(activations := s.activations[agent := In(s.activations, agent)[request.requestID := a]])
  {
    OpenSound(s);
    StandsIsStopped(s, agent);
    OperationSays(s, agent, request.configRevision, if agent in s.latest then s.latest[agent] else "");
  }

  /** Nothing is stored for a stopped agent, nor under an id used before, whose activation is answered to the
      same request alone, nor for a revision the agent does not have. */
  lemma PrepareRefuses(s: Store, agent: GRN, request: ActivationRequest)
    requires Sound(s)
    requires StopStands(s, agent) || request.requestID in In(s.activations, agent)
             || request.configRevision < 1 || request.configRevision > Count(s, agent)
    ensures PrepareActivationSpec(s, agent, request) ==
              (s, if StopStands(s, agent) then Err(AgentStopped)
                  else if request.requestID in In(s.activations, agent) then
                    if s.activations[agent][request.requestID].request == request then Ok(s.activations[agent][request.requestID])
                    else Err(RequestReused)
                  else if Count(s, agent) == 0 then Err(NotFound) else Err(InvalidStatus))
  {
    StandsIsStopped(s, agent);
  }
}
