/** The values the control service stores, and the decisions over them that change nothing. */
module Domain {
  import opened Options

  type GRN = string
  type Revision = int
  type Version = int
  type Position = int

  datatype RequestKey = RequestKey(organization: string, requestID: string)

  datatype Assignment = Assignment(operator: string, epoch: string)

  /** What garam's operation authority bound a console request to. */
  datatype Binding = Binding(
    actor: string, operation: string, target: string, bodySHA256: string, operationRef: string, assignment: Assignment)

  datatype Embedding = Embedding(baseURL: string, name: string, apiKey: string)

  datatype Model = Model(provider: string, baseURL: string, name: string, apiKey: string, embedding: Option<Embedding>)

  datatype Configuration = Configuration(model: Model, ego: string, tools: map<string, string>)

  datatype ProfileRef = ProfileRef(name: string, version: Version)

  datatype TemplateRef = TemplateRef(name: string, version: Version)

  /** Execution settings, as one value: quantities are taken in one written form. */
  datatype Settings = Settings(
    resources: string, storageSize: string, storageClassName: Option<string>, workspaceStorageSize: Option<string>)

  datatype Definition = Definition(
    agent: GRN, organization: string, revision: Revision, profile: ProfileRef, config: Configuration,
    assignment: Option<Assignment>)

  datatype RequestOutcome = Unset | Applied(revision: Revision) | Stale

  datatype Request = Request(key: RequestKey, binding: Binding, agent: GRN, outcome: RequestOutcome)

  datatype Outcome = Pending | Registered(agent: GRN, epoch: string) | Failed(reason: string, conflict: bool)

  datatype Creation = Creation(
    key: RequestKey, binding: Binding, controller: string, template: TemplateRef, profile: ProfileRef, outcome: Outcome)

  datatype PreviousPlacement = PreviousPlacement(podUID: string, writerStoppedSHA256: string)

  const NO_PREVIOUS := PreviousPlacement("", "")

  datatype PlacementRequest = PlacementRequest(
    podUID: string, pvcUID: string, epoch: string, tokenSHA256: string, previous: PreviousPlacement)

  datatype PlacementInput = PlacementInput(agent: GRN, controller: string, request: PlacementRequest)

  datatype Placement = Placement(agent: GRN, controller: string, request: PlacementRequest, superseded: bool)

  datatype ActivationRequest = ActivationRequest(
    requestID: string, epoch: string, generation: string, configRevision: Revision, placementPodUID: string)

  /** A stored activation request; activationID is empty until garam answers. */
  datatype Activation = Activation(
    agent: GRN, request: ActivationRequest, replacesActivationID: string, operationRef: string, activationID: string)

  datatype RuntimeApplied = RuntimeApplied(revision: Revision, activationID: string, generation: string, observedAt: int)

  datatype RecoveryStage = RecoveryRequested | RecoveryPrepared | RecoveryFinalized

  /** The bytes a recovery request is sent as. The encoding is taken to be injective, so the bytes are
      what they encode; None is no bytes yet. */
  datatype Body = NoBody | RecoveryBody(requestID: string, epoch: string)

  datatype Recovery = Recovery(
    agent: GRN, requestID: string, key: RequestKey, binding: Binding, epoch: string, stage: RecoveryStage,
    body: Body, recovered: Option<string>)

  datatype OpenRecovery = OpenRecovery(requestID: string, epoch: string)

  datatype StopEnd = StopEnd(key: RequestKey, binding: Binding)

  datatype Stop = Stop(
    agent: GRN, key: RequestKey, binding: Binding, activationID: string, deactivated: bool, start: Option<StopEnd>)

  datatype DesiredRevision = DesiredRevision(
    definition: Definition, settings: Settings, stopped: bool, recovery: Option<OpenRecovery>)

  datatype DesiredPage = DesiredPage(position: Position, revisions: seq<DesiredRevision>)

  datatype Error =
    | NotFound
    | StaleRevision
    | RequestReused
    | InvalidStatus
    | AssignmentMoved
    | RegistrationDenied
    | RegistrationUndecided
    | EmbeddingImmutable
    | EmbeddingRequired
    | InvalidSecretRef
    | ActivationMismatch
    | PlacementSuperseded
    | PreviousMismatch
    | EvidenceMissing
    | PlacementConflict
    | ProfileVersionConflict
    | ProfileVersionGap
    | RecoveryOpen
    | RecoveryStageMismatch
    | RecoveryEpoch
    | AgentStopped
    | AgentNotStopped
    | InvalidQuery

  // ---- Placements ----

  datatype PlacementAction = PlacementRepeat | PlacementRegister

  /** A registration against the agent's current placement and the stored placement of the same Pod. */
  function DecidePlacement(current: Option<Placement>, same: Option<Placement>, input: PlacementInput)
    : Result<PlacementAction, Error>
  {
    if same.Some? then
      if same.value.superseded then Err(PlacementSuperseded)
      else if same.value.request != input.request || same.value.controller != input.controller then Err(PlacementConflict)
      else Ok(PlacementRepeat)
    else if input.request.previous == NO_PREVIOUS then
      if current.Some? then Err(PreviousMismatch) else Ok(PlacementRegister)
    else if current.None? || current.value.request.podUID != input.request.previous.podUID then Err(PreviousMismatch)
    else if input.request.previous.writerStoppedSHA256 == "" then Err(EvidenceMissing)
    else Ok(PlacementRegister)
  }

  // ---- Configurations ----

  const NO_MODEL := Model("", "", "", "", None)
  const MOCK := "mock"

  /** Refuses a malformed reference to a secret, and a model that needs an embedding and does not name a
      whole one. A configuration naming no model at all names neither. */
  function CheckConfiguration(refs: string -> bool, c: Configuration): Result<(), Error> {
    if c.model == NO_MODEL then Ok(())
    else if !refs(c.model.apiKey) then Err(InvalidSecretRef)
    else
      match c.model.embedding
      case None => if c.model.provider != MOCK then Err(EmbeddingRequired) else Ok(())
      case Some(e) =>
        if e.baseURL == "" || e.name == "" then Err(EmbeddingRequired)
        else if e.apiKey != "" && !refs(e.apiKey) then Err(InvalidSecretRef)
        else Ok(())
  }

  // ---- Embeddings ----

  /** The request names the endpoint an earlier revision did; its key may differ. */
  predicate SameEndpoint(e: Option<Embedding>, was: Embedding) {
    e.Some? && e.value.baseURL == was.baseURL && e.value.name == was.name
  }
}
