/**
  The control service over its store: how each request is decided from what it reads, and what it then
  stores. garam's answers are given to a method as what it would answer if asked.
 */
module Service {
  import opened Options
  import opened Domain
  import opened Store
  import Spec = Store
  import opened StoreSafety
  import opened StoreHistory
  import opened Memory
  import opened EmbeddingSafety
  import opened StopSafety

  // ---- What a request is decided from ----

  /** The reference an activation of a revision is sent with: none where the runtime reported that
      revision effective under the anchor, else that of the request which produced it. */
  ghost function OperationReference(s: Store, agent: GRN, revision: Revision, anchor: string): Result<string, Error> {
    if agent in s.applied && anchor != "" && s.applied[agent].activationID == anchor && s.applied[agent].revision == revision then Ok("")
    else if revision == 1 then
      match Spec.CreationOf(s, agent)
      case Ok(c) => Ok(c.binding.operationRef)
      case Err(e) => Err(e)
    else Spec.ConfigureReference(s, agent, revision)
  }

  /** Every revision an agent has was produced by a stored request, so the reference is always found. */
  lemma ReferenceIsFound(s: Store, agent: GRN, revision: Revision, anchor: string)
    requires StoreOk(s) && 1 <= revision <= Count(s, agent)
    ensures OperationReference(s, agent, revision, anchor).Ok?
  {
    if revision == 1 {
      assert IsCreated(s.creations, agent);
      var key :| CreatedKey(s.creations, agent, key);
      assert CreatedBy(s, agent, key);
    } else {
      assert IsApplied(s.requests, agent, revision);
      var key :| AppliedKey(s.requests, agent, revision, key);
      assert AppliedBy(s, agent, revision, key);
    }
  }

  /** And there is one answer, whatever order the requests and creations are walked in. */
  lemma ReferenceIsOne(s: Store, agent: GRN, revision: Revision)
    requires StoreOk(s)
    ensures forall k, l | CreatedBy(s, agent, k) && CreatedBy(s, agent, l) :: k == l
    ensures forall k, l | AppliedBy(s, agent, revision, k) && AppliedBy(s, agent, revision, l) :: k == l
  {
    forall k, l | CreatedBy(s, agent, k) && CreatedBy(s, agent, l)
      ensures k == l
    {
      assert CreatedKey(s.creations, agent, k) && CreatedKey(s.creations, agent, l);
    }
    forall k, l | AppliedBy(s, agent, revision, k) && AppliedBy(s, agent, revision, l)
      ensures k == l
    {
      assert AppliedKey(s.requests, agent, revision, k) && AppliedKey(s.requests, agent, revision, l);
    }
  }

  /** The activation a request is stored as, with the anchor and reference every attempt sends. */
  ghost function ActivationFor(s: Store, agent: GRN, request: ActivationRequest): Activation
    requires Sound(s) && 1 <= request.configRevision <= Count(s, agent)
  {
    OpenSound(s);
    ReferenceIsFound(s, agent, request.configRevision, LatestOf(s, agent));
    Activation(agent, request, LatestOf(s, agent),
               OperationReference(s, agent, request.configRevision, LatestOf(s, agent)).value, "")
  }

  ghost function PrepareActivationSpec(s: Store, agent: GRN, request: ActivationRequest): (Store, Result<Activation, Error>)
    requires Sound(s)
  {
    if IsStopped(s, agent) then (s, Err(AgentStopped))
    else if request.requestID in In(s.activations, agent) then
      var stored := s.activations[agent][request.requestID];
      (s, if stored.request != request then Err(RequestReused) else Ok(stored))
    else if Count(s, agent) == 0 then (s, Err(NotFound))
    else if request.configRevision < 1 || request.configRevision > Count(s, agent) then (s, Err(InvalidStatus))
    else
      var (t, a) := Spec.InsertActivation(s, ActivationFor(s, agent, request));
      (t, Ok(a))
  }

  /** What garam answers a registration: the agent, a refusal that may name another request, or nothing
      decided. */
  datatype Registration = RegisteredAs(agent: GRN, epoch: string) | RegistrationRefused(reason: string, conflict: bool) | Undecided

  datatype CreateInput = CreateInput(
    request: RequestKey, binding: Binding, controller: string, template: TemplateRef, profile: ProfileRef)

  function FirstRevision(c: CreateInput, config: Configuration, agent: GRN, epoch: string): Definition {
    Definition(agent, c.request.organization, 1, c.profile, config, Some(Assignment(c.controller, epoch)))
  }

  function CreationFor(c: CreateInput): Creation {
    Creation(c.request, c.binding, c.controller, c.template, c.profile, Pending)
  }

  /** The creation stored is of this very request, however it ended. */
  predicate SameRequest(stored: Creation, c: CreateInput) {
    stored.(outcome := Pending, key := c.request) == CreationFor(c)
  }

  /** A creation request decided. The template is what is published under its reference, or none. */
  function CreateSpec(s: Store, refs: string -> bool, c: CreateInput, template: Option<Configuration>, garam: Registration)
    : (Store, Result<(Creation, bool), Error>)
  {
    if template.None? then (s, Err(NotFound))
    else if CheckConfiguration(refs, template.value).Err? then (s, Err(CheckConfiguration(refs, template.value).error))
    else if !Published(s, c.request.organization, c.profile) then (s, Err(NotFound))
    else
      var (begun, stored) := Spec.BeginCreation(s, CreationFor(c));
      if !SameRequest(stored, c) then (begun, Err(RequestReused))
      else
        match stored.outcome
        case Failed(_, _) => (begun, Ok((stored, false)))
        case Registered(agent, epoch) =>
          (match garam
           case RegisteredAs(a, e) => if a == agent && e == epoch then (begun, Ok((stored, false))) else (begun, Err(AssignmentMoved))
           case RegistrationRefused(_, conflict) => (begun, Err(if conflict then AssignmentMoved else RegistrationDenied))
           case Undecided => (begun, Err(RegistrationUndecided)))
        case Pending =>
          match garam
          case RegisteredAs(a, e) => Spec.RegisterCreation(begun, c.request, FirstRevision(c, template.value, a, e))
          case RegistrationRefused(reason, conflict) =>
            var (failed, answer) := Spec.FailCreation(begun, c.request, Failed(reason, conflict));
            (failed, match answer case Ok(f) => Ok((f, false)) case Err(e) => Err(e))
          case Undecided => (begun, Err(RegistrationUndecided))
  }

  /** A creation asked again ends as it ended, whatever garam answers now and whatever its template says:
      one registered stays on its agent and epoch, one failed is answered as it failed, and nothing is
      stored. */
  lemma CreateEndsOnce(s: Store, refs: string -> bool, c: CreateInput, template: Option<Configuration>, garam: Registration,
                       now: Option<Configuration>, again: Registration)
    requires StoreOk(s)
    ensures var once := CreateSpec(s, refs, c, template, garam).0;
            c.request in once.creations && once.creations[c.request].outcome != Pending ==>
              var (t, answer) := CreateSpec(once, refs, c, now, again);
              t == once && (answer.Ok? ==> answer.value == (once.creations[c.request], false))
  {
  }

  /** An agent created has the template's configuration in its first revision, and that passed the check. */
  lemma CreatedIsChecked(s: Store, refs: string -> bool, c: CreateInput, template: Option<Configuration>, garam: Registration)
    ensures var (t, answer) := CreateSpec(s, refs, c, template, garam);
            answer.Ok? && answer.value.1 ==>
              && template.Some? && CheckConfiguration(refs, template.value).Ok? && garam.RegisteredAs?
              && At(s.definitions, garam.agent) == []
              && At(t.definitions, garam.agent) == [FirstRevision(c, template.value, garam.agent, garam.epoch)]
  {
    if template.Some? && garam.RegisteredAs? {
      var (begun, stored) := Spec.BeginCreation(s, CreationFor(c));
      assert begun.definitions == s.definitions;
      RegisteredFirst(begun, c.request, FirstRevision(c, template.value, garam.agent, garam.epoch));
    }
  }

  lemma RegisteredFirst(s: Store, key: RequestKey, d: Definition)
    requires d.assignment.Some? && d.revision == 1
    ensures var (t, answer) := Spec.RegisterCreation(s, key, d);
            answer.Ok? && answer.value.1 ==> At(s.definitions, d.agent) == [] && At(t.definitions, d.agent) == [d]
  {
  }

  function StopOf(agent: GRN, key: RequestKey, binding: Binding, latest: string): Stop {
    Stop(agent, key, binding, latest, false, None)
  }

  /** What a configure request is answered, read off the request as it is stored: an agent not in its
      organization stores none. */
  function ConfigureAnswer(t: Store, c: ConfigureInput): Result<Revision, Error> {
    if c.request !in t.requests then Err(NotFound)
    else if t.requests[c.request].binding != c.binding || t.requests[c.request].agent != c.agent then Err(RequestReused)
    else
      match t.requests[c.request].outcome
      case Applied(revision) => Ok(revision)
      case _ => Err(StaleRevision)
  }

  lemma AnsweredAsStored(s: Store, c: ConfigureInput)
    ensures var (t, answer) := Spec.Configure(s, RequestOf(c), DefinitionOf(c));
            if answer.Ok? then c.request in t.requests && answer.value == t.requests[c.request]
            else answer == Err(NotFound) && c.request !in t.requests
  {
  }

  predicate InOrganizationOf(s: Store, agent: GRN, organization: string) {
    Count(s, agent) > 0 && Last(s.definitions[agent]).organization == organization
  }

  /** What a stop is answered, read off the stop as it is stored: another that holds the agent leaves
      none under the key. */
  function StopAnswer(s: Store, t: Store, agent: GRN, key: RequestKey, binding: Binding): Result<(Stop, bool), Error> {
    if key !in t.stops then Err(AgentStopped)
    else if t.stops[key].agent != agent || t.stops[key].binding != binding then Err(RequestReused)
    else Ok((t.stops[key], key !in s.stops))
  }

  /** What a start is answered, read off the stop its key ended. */
  function StartAnswer(t: Store, agent: GRN, key: RequestKey, binding: Binding): Result<Stop, Error> {
    if key !in t.stopEnds || t.stopEnds[key] !in t.stops then Err(AgentNotStopped)
    else
      var stop := t.stops[t.stopEnds[key]];
      if stop.agent != agent || stop.start.None? || stop.start.value.binding != binding then Err(RequestReused) else Ok(stop)
  }

  lemma StartIsStored(s: Store, agent: GRN, end: StopEnd)
    requires Sound(s)
    ensures var (t, answer) := Spec.RecordStart(s, agent, end);
            if answer.Ok? then end.key in t.stopEnds && t.stopEnds[end.key] in t.stops && answer.value == t.stops[t.stopEnds[end.key]]
            else answer == Err(AgentNotStopped) && end.key !in t.stopEnds
  {
    OpenSound(s);
    if end.key in s.stopEnds {
      EndedOnce(s, agent, end);
    } else {
      NotEnded(s, agent, end);
      if IsStopped(s, agent) {
        var key :| HoldsAgent(s, agent, key);
        assert CurrentStop(s, agent).value.key in s.stops;
      }
    }
  }

  class Service {
    const repository: Memory
    const refs: string -> bool            // whether a string is a reference to a secret

    constructor (repository: Memory, refs: string -> bool)
      ensures this.repository == repository && this.refs == refs
    {
      this.repository, this.refs := repository, refs;
    }

    // ---- Configure ----

    method Configure(c: ConfigureInput) returns (r: Result<Revision, Error>)
      requires repository.Valid()
      modifies repository
      ensures repository.Valid()
      ensures var s, t := old(repository.Snap()), repository.Snap();
              if CheckConfiguration(refs, c.config).Err? then t == s && r == Err(CheckConfiguration(refs, c.config).error)
              else if !Published(s, c.request.organization, c.profile) then t == s && r == Err(NotFound)
              else if CheckEmbedding(s, c).Err? then t == s && r == Err(EmbeddingImmutable)
              else
                t == Stored(s, c) && r == ConfigureAnswer(t, c)
    {
      var accepted := CheckConfiguration(refs, c.config);
      if accepted.Err? {
        return Err(accepted.error);
      }
      var version := c.profile.version;
      if version < 1 || version > |At(repository.profiles, Named(c.request.organization, c.profile.name))| {
        return Err(NotFound);
      }
      var checked := EmbeddingKept(c);
      if checked.Err? {
        return Err(checked.error);
      }
      OpenSound(repository.Snap());
      AnsweredAsStored(repository.Snap(), c);
      var stored := repository.Configure(RequestOf(c), DefinitionOf(c));
      if stored.Err? {
        return Err(stored.error);
      }
      if stored.value.binding != c.binding || stored.value.agent != c.agent {
        return Err(RequestReused);
      }
      match stored.value.outcome {
        case Applied(revision) => r := Ok(revision);
        case _ => r := Err(StaleRevision);
      }
    }

    method EmbeddingKept(c: ConfigureInput) returns (r: Result<(), Error>)
      ensures r == CheckEmbedding(repository.Snap(), c)
    {
      var latest := repository.GetDefinition(c.agent);
      if latest.Err? {
        return Ok(());
      }
      var was := latest.value.config.model.embedding;
      if latest.value.organization != c.request.organization || latest.value.revision != c.expectedRevision || was.None? {
        return Ok(());
      }
      r := if SameEndpoint(c.config.model.embedding, was.value) then Ok(()) else Err(EmbeddingImmutable);
    }

    // ---- Create ----

    method CreateAgent(c: CreateInput, template: Option<Configuration>, garam: Registration) returns (r: Result<(Creation, bool), Error>)
      requires repository.Valid()
      modifies repository
      ensures (repository.Snap(), r) == CreateSpec(old(repository.Snap()), refs, c, template, garam)
      ensures repository.Valid()
    {
      if template.None? {
        return Err(NotFound);
      }
      var accepted := CheckConfiguration(refs, template.value);
      if accepted.Err? {
        return Err(accepted.error);
      }
      var version := c.profile.version;
      if version < 1 || version > |At(repository.profiles, Named(c.request.organization, c.profile.name))| {
        return Err(NotFound);
      }
      var stored := repository.BeginCreation(CreationFor(c));
      if stored.binding != c.binding || stored.controller != c.controller || stored.template != c.template
         || stored.profile != c.profile {
        return Err(RequestReused);
      }
      if stored.outcome.Failed? {
        return Ok((stored, false));
      }
      if stored.outcome.Registered? {
        match garam {
          case RegisteredAs(agent, epoch) =>
            return if stored.outcome == Registered(agent, epoch) then Ok((stored, false)) else Err(AssignmentMoved);
          case RegistrationRefused(_, conflict) => return Err(if conflict then AssignmentMoved else RegistrationDenied);
          case Undecided => return Err(RegistrationUndecided);
        }
      }
      match garam {
        case RegisteredAs(agent, epoch) => r := repository.RegisterCreation(c.request, FirstRevision(c, template.value, agent, epoch));
        case RegistrationRefused(reason, conflict) =>
          var failed := repository.FailCreation(c.request, Failed(reason, conflict));
          r := match failed case Ok(f) => Ok((f, false)) case Err(e) => Err(e);
        case Undecided => r := Err(RegistrationUndecided);
      }
    }

    // ---- Stop and start ----

    method InOrganization(agent: GRN, organization: string) returns (ok: bool)
      ensures ok <==> InOrganizationOf(repository.Snap(), agent, organization)
    {
      var d := repository.GetDefinition(agent);
      ok := d.Ok? && d.value.organization == organization;
    }

    /** Under the agent's lock: the latest activation is read, and the stop recorded with it. */
    method Stop(agent: GRN, key: RequestKey, binding: Binding) returns (r: Result<(Stop, bool), Error>)
      requires repository.Valid()
      modifies repository
      ensures repository.Valid()
      ensures var s, t := old(repository.Snap()), repository.Snap();
              if !InOrganizationOf(s, agent, key.organization) then t == s && r == Err(NotFound)
              else
                && t == Spec.RecordStop(s, StopOf(agent, key, binding, LatestOf(s, agent))).0
                && r == StopAnswer(s, t, agent, key, binding)
                && (key in t.stops && key !in s.stops ==>
                      t.stops[key].activationID == LatestOf(s, agent) && IsStopped(t, agent) && !IsStopped(s, agent))
    {
      var inside := InOrganization(agent, key.organization);
      if !inside {
        return Err(NotFound);
      }
      var latest := repository.LatestActivation(agent);
      var stored := repository.RecordStop(StopOf(agent, key, binding, if latest.Ok? then latest.value else ""));
      assert stored.Ok? && stored.value.1 ==> HoldsAgent(repository.Snap(), agent, key);
      if stored.Err? {
        return Err(stored.error);
      }
      if stored.value.0.agent != agent || stored.value.0.binding != binding {
        return Err(RequestReused);
      }
      r := stored;
    }

    method Start(agent: GRN, key: RequestKey, binding: Binding) returns (r: Result<Stop, Error>)
      requires repository.Valid()
      modifies repository
      ensures repository.Valid()
      ensures var s, t := old(repository.Snap()), repository.Snap();
              if !InOrganizationOf(s, agent, key.organization) then t == s && r == Err(NotFound)
              else t == Spec.RecordStart(s, agent, StopEnd(key, binding)).0 && r == StartAnswer(t, agent, key, binding)
    {
      var inside := InOrganization(agent, key.organization);
      if !inside {
        return Err(NotFound);
      }
      StartIsStored(repository.Snap(), agent, StopEnd(key, binding));
      var stored := repository.RecordStart(agent, StopEnd(key, binding));
      if stored.Err? {
        return Err(stored.error);
      }
      if stored.value.agent != agent || stored.value.start.None? || stored.value.start.value.binding != binding {
        return Err(RequestReused);
      }
      r := stored;
    }

    // ---- Activations ----

    method PrepareActivation(agent: GRN, request: ActivationRequest) returns (r: Result<Activation, Error>)
      requires repository.Valid()
      modifies repository
      ensures (repository.Snap(), r) == PrepareActivationSpec(old(repository.Snap()), agent, request)
      ensures repository.Valid()
    {
      var stop := repository.CurrentStopLocked(agent);
      if stop.Some? {
        return Err(AgentStopped);
      }
      var held := In(repository.activations, agent);
      if request.requestID in held {
        return if held[request.requestID].request != request then Err(RequestReused) else Ok(held[request.requestID]);
      }
      var d := repository.GetDefinition(agent);
      if d.Err? {
        return Err(NotFound);
      }
      OpenSound(repository.Snap());
      LatestIsNumbered(repository.Snap(), agent);
      if request.configRevision < 1 || request.configRevision > d.value.revision {
        return Err(InvalidStatus);
      }
      var latest := repository.LatestActivation(agent);
      var anchor := if latest.Ok? then latest.value else "";
      var ref := Reference(agent, request.configRevision, anchor);
      ReferenceIsFound(repository.Snap(), agent, request.configRevision, anchor);
      var stored := repository.InsertActivation(Activation(agent, request, anchor, ref.value, ""));
      r := Ok(stored);
    }

    method Reference(agent: GRN, revision: Revision, anchor: string) returns (r: Result<string, Error>)
      requires repository.Valid()
      ensures r == OperationReference(repository.Snap(), agent, revision, anchor)
    {
      var applied := repository.applied;
      if agent in applied && anchor != "" && applied[agent].activationID == anchor && applied[agent].revision == revision {
        return Ok("");
      }
      if revision == 1 {
        var creation := repository.CreationOf(agent);
        return match creation case Ok(c) => Ok(c.binding.operationRef) case Err(e) => Err(e);
      }
      r := repository.ConfigureReference(agent, revision);
    }
  }

  lemma LatestIsNumbered(s: Store, agent: GRN)
    requires StoreOk(s)
    ensures Count(s, agent) > 0 ==> Last(s.definitions[agent]).revision == Count(s, agent)
  {
    if Count(s, agent) > 0 {
      assert NumberedOk(s.profiles, agent, s.definitions[agent]);
    }
  }
}
