# Verified models of the agent control plane

Dafny 4.11 models of three parts of the repository, each with proofs over whole runs:

- **One agent's objects in the cluster** (`internal/controller`). A `World` holds the Agent, its
  StatefulSet, its one Pod, its claims, Jobs, nodes and placement Secret, together with what is physically
  true and no reconcile reads: which containers run, which ended for good, what a claim holds. The manager
  is a sequence of single writes that may stop after any of them; the StatefulSet controller, the kubelet,
  the node, the Jobs, the user and whoever deletes a Pod by force are steps between reconciles.
- **The control service's store and its requests** (`internal/definition`, `internal/distribution`,
  `internal/execution`, and the controller's end of the feed in `internal/desired`). A `Store` of twelve
  maps and a position, its sixteen operations, the feed's pages and position, and interleavings of requests around the
  activation lock and around a configure request's check and store.
- **Tokens and credentials** (`internal/garam`, `internal/machinetoken`, `internal/desired/credential`). The
  refresher against the recoverer over one versioned Secret, and a token source with its backoff and its
  failure streak.

Code that changes state is a class whose methods are proved, write by write, against a function of the
value it held (`Reconciler`, `Memory`, `Service`, `Puller`, `Refresher`, `Source`, `AgentStatefulSet`). The
properties are then proved of those functions over runs, so they are properties of the methods. The
results are the run theorems; the rows of the methods, named with their class, come last in the table and
say what each method does, most of them as a function says it.

## How the files go together

- Cluster: `Cluster` (the objects, the environment and what it is trusted for), `Fence`, `Move`, `Workload`
  (what a pass does), `Invariants`, `Frames`, `EnvironmentSafety`, `FenceSafety`, `MoveSafety`, `RunSafety`
  (every step keeps the invariants), then the results: `OneWriter`, `SwitchSafety`, `Abandoned`, `Chain`,
  `Progress`, `MoveProgress`, `RunProgress`, `Resume`, `ResumeLater`, `RenamedMove`; `SampleRuns` builds the
  runs the counterexamples end; `AgentReconciler` is the class.
- Store: `Domain`, `Store`, `StoreFrames`, `StoreSafety`, `StoreHistory`, then `Feed`, `StopSafety`,
  `EmbeddingSafety`, `EmbeddingAhead`, `StoreTheorems`, `Revisions`, `Puller`; `Memory` and `Service` are
  the classes.
- Tokens: `CredentialSecret`, `Refresher`, `Streak`, `MachineToken`.
- `Template` is the StatefulSet's Pod template, rewritten in place.
- `FenceMeaning`, `MoveMeaning`, `WorkloadMeaning`, `StoreMeaning`, `FeedMeaning`, `ServiceMeaning`,
  `PullerMeaning`, `RefresherMeaning`, `TokenMeaning` and `TemplateMeaning` say what each operation decides in
  the fields of what it reads and leaves, without the functions that specify it, so that those functions are
  held to it too.

Several modules put a large predicate behind `forall shown: bool ::` (`Safe`, `Kept`, `Sound`, `Moved`,
`Awaits`): the meaning is the same, and a proof unfolds it only where a lemma opens it.

## What is assumed

- A terminated status with a container ID in a deleting Pod on a known node is true, and a terminal phase
  the kubelet wrote means nothing of the Pod runs (`Cluster.Truthful`). Anything else a status says may be
  false or stale, and a node may come and go.
- A deleting Pod that has no node is never given one. UIDs and tokens are fresh, and digests do not collide.
- Nobody takes the fence off a Pod by hand, edits a claim's annotations, or deletes a claim.
- A move's id is not named again after a later move switched (`Cluster.MayName`).
- garam may refuse, answer or stay undecided at any time. Clocks do not go back.
- Nobody but the feed's renderer edits or deletes an Agent the feed made, and a credential Secret once placed
  is not deleted. Anyone may place one, or write to it otherwise.

## What does not hold

- **A move id named again after a later move switched loses what was written since.** Advancing a move does
  not compare its recorded source with the claim in use. `RenamedMove.OnlyTheNamingIsBroken` ends a run of
  the model one such naming short of the state `RenamedMove.RenamingLosesWrites` starts from.
  `Chain.SwitchTakesOver` is the exact condition, for every state with a chain of fewer than 64 claims and
  whatever was named: the linking write takes the memory off a newer claim than its source if and only if
  the source is on the chain and is not the claim in use.
- **A move linked while the StatefulSet still runs on its source lets a Pod start on the source**, after
  which the agent's memory is on the copy and the Pod's writes are left behind. It takes passes that all
  stopped short of the StatefulSet (`Abandoned.CompletedPassParks`); `Abandoned.StalledAbandons` is such a
  run, `Abandoned.PassLosesUse` exactly when a pass does it, and `Abandoned.NoPodOnAbandoned` what follows.
- **A configure request ahead of its agent can change an embedding endpoint**, since it is checked and stored
  in two steps: `EmbeddingAhead.EarlyBreaks` is a run, `EmbeddingAhead.BreaksExactlyWhenAhead` exactly when.
- **A stop rendered but not reported hides the start after it.** The puller's cache keeps the key reported
  last, so the start is passed over on every answer: `Puller.UnreportedStopSticks`, and
  `Puller.CacheIsRightIffReported` for exactly when the cache is right.
- **With no credential Secret placed, a refresh can write tokens minted before a recovery**:
  `CredentialSecret.UnplacedKeepsOldTokens` is such a run, `CredentialSecret.CreatedIsOldIffStranded` and
  `CredentialSecret.RefreshIsOldIffStranded` are exactly when.
- **A garam token whose lifetime is 9,223,372,037 seconds is answered expired**, because the lifetime wraps in
  64 bits (`MachineToken.LongLifetimeExpires`). Longer ones are answered expired or not as
  `MachineToken.LifetimeIsPositive` says.
- **A configuration the control service accepts need not render**: its check says it refuses one the manager
  could not render (internal/definition/definition.go:93-96), but asks no provider, base URL or name of a
  model. `Puller.AcceptedMayNotRender` is one, `Puller.AcceptedRenders` the exact difference.

## Model

| member | source | states |
|---|---|---|
| OneWriter.NeverTwoWriters | internal/controller/agent_fence.go:92-215 | In every run, with a crash after any write, forced deletes, unknown nodes, suspension, replaced StatefulSets and moves, a running writer belongs to the one Pod that holds the agent's name and still carries the fence; no two Pods ever have one at once, on one claim or on two |
| OneWriter.ReleasedForEver | internal/controller/agent_fence.go:130-173 | Once a Pod lost its fence or its name nothing of it runs again for the rest of the run |
| RunSafety.RunIsSafe | internal/controller/agent_controller.go:81-129 | Every state of every run satisfies all nine groups of invariants the results rest on |
| FenceSafety.EvidenceNamesEveryWriter | internal/controller/agent_fence.go:280-391 | Evidence is given exactly when each writer, read alone, counts as stopped, and each was then seen terminated with a container ID or lay in a Pod the kubelet made terminal |
| FenceSafety.EvidenceMeansQuiet | internal/controller/agent_fence.go:180-272 | A deleting Pod the fence finds evidence for has nothing that runs or could run again, and its claim exists if it was ever given a node |
| FenceMeaning.WritersAre | internal/controller/agent_fence.go:280-299 | The containers that count as writers are the init containers that restart and every container |
| FenceMeaning.EvidenceExactly | internal/controller/agent_fence.go:180-391 | In the fields of the Pod, its node and its claim: evidence is given if and only if the node's last report is known, the claim is the one the Pod was marked with, and every writer's own status shows it ended with a container ID or never made in a Pod the kubelet made terminal; the evidence lists every writer as its status tells it, and the node and the claim are refused first |
| FenceMeaning.RunRecordsExit | internal/controller/agent_fence.go:532-577 | In every run, the step that takes a Pod's fence off records on its claim the exit code the agent's own status tells, and none where it tells none, so that the claim counts as drained cleanly if and only if the agent ended with a container ID and code 0 |
| FenceMeaning.AgentExitIsLast | internal/controller/agent_fence.go:532-554 | The exit taken from evidence is the code of the last entry of the agent's container, and none if and only if there is no such entry |
| FenceMeaning.MarksRunningPod | internal/controller/agent_fence.go:397-431 | A running Pod not marked yet is marked with its claim's UID, and the claim with the Pod as its running writer |
| FenceSafety.FinalizerComesOffOnEvidence | internal/controller/agent_fence.go:130-173 | Whatever was repeated or stopped before: when a pass takes the finalizer off, the Agent carries that Pod's evidence, the placement Secret names the Pod and that evidence beside a token minted in this pass, and the claim records the Pod as stopped with its agent's exit; no other branch of the fence takes it off |
| FenceSafety.ReleaseResumes | internal/controller/agent_fence.go:92-173 | A release stopped after any of its writes and begun again at once ends with the finalizer off within four writes |
| ResumeLater.ReleaseResumesLater | internal/controller/agent_fence.go:92-215 | Whatever the environment does after a release stopped short, to the Pod, its node, the Jobs, the Agent and its spec, the first pass with four writes that can read the Pod's evidence takes the finalizer off, on evidence, placement and claim as they are then |
| SwitchSafety.SwitchIsFaithful | internal/controller/agent_move.go:404-553 | A pass that links a move, wherever it stopped, did so with no Pod left, from a source whose last writer exited 0 and whose content is what it held then, to a target that holds exactly that state, no extra entry, and was never mounted |
| SwitchSafety.RunSwitchesToCopies | internal/controller/agent_move.go:452-553 | In every run the memory is switched only to such a copy, and the step that switches changes no content |
| SwitchSafety.UnchangedIffUntouched | internal/controller/agent_move.go:452-473 | With no Pod left, the source's recorded last writer is still the one the move began from exactly when no Pod was created on the source since |
| SwitchSafety.TouchedNeverSwitches | internal/controller/agent_move.go:404-473 | Once a Pod was created on the source of a move not yet linked, the move is never linked for the rest of the run, its phase stays or is refused, and the last-writer record differs whenever no Pod is left |
| SwitchSafety.TouchedIsRefused | internal/controller/agent_move.go:404-448 | The next pass that works on such a move with no Pod left refuses it |
| Abandoned.LinkKeepsUse | internal/controller/agent_move.go:546-553 | The condition the run theorem below rests on, at the one write: linking a move keeps the StatefulSet off claims the memory left if and only if the StatefulSet does not still run on the move's source |
| Abandoned.PassLosesUse | internal/controller/agent_controller.go:81-129 | A whole pass, wherever it stops, that begins with the StatefulSet on no claim the memory left ends with it on one if and only if it linked a move over a StatefulSet running on the source and did not come to write the StatefulSet |
| Abandoned.NoPodOnAbandoned | internal/controller/agent_statefulset.go:239-291 | In every run in which no move was linked over a StatefulSet still running on its source, the StatefulSet never runs on a claim the memory left and no Pod is created on one |
| Abandoned.CompletedPassParks | internal/controller/agent_controller.go:191-315 | A pass that ends without stopping short on a move it has not linked leaves the StatefulSet nothing to run |
| WorkloadMeaning.StsDecides | internal/controller/agent_statefulset.go:239-291 | The StatefulSet once written, field by field: one replica unless the agent is suspended, stopped or held, the claim and store the plan says, the templates it was made with; and deleted if and only if it is in the shared shape or its template makes a claim the memory left |
| WorkloadMeaning.CompletedPassKeepsHeld | internal/controller/agent_controller.go:81-129 | A pass that ends leaves the Agent fenced, a placement Secret where an adapter is built, and a suspended or stopped agent with nothing to run |
| WorkloadMeaning.IdlePassDecides | internal/controller/agent_controller.go:191-315 | With no move named, a pass that ends leaves one replica on the claim in use, opening an existing store if and only if that is not the StatefulSet's own, while no Job runs, and nothing to run while one does |
| WorkloadMeaning.SettlingPassDecides | internal/controller/agent_controller.go:191-315 | With the memory on a move's claim, a pass that ends leaves nothing to run where the first Pod failed or a Job runs, and one replica on that claim otherwise |
| WorkloadMeaning.DeletionDecides | internal/controller/agent_controller.go:137-170 | A pass over a deleting Agent that ends has deleted the StatefulSet, and taken the Agent's finalizer off if and only if no Pod was left when it began |
| WorkloadMeaning.MintsForAdaptersOnly | internal/controller/agent_fence.go:436-496 | Where no adapter is built no pass touches the placement Secret |
| Abandoned.PodMayStartAbandoned | internal/controller/agent_statefulset.go:258-291 | Where the condition fails and the name is free, the StatefulSet controller may create a Pod on a claim the memory left |
| Abandoned.StalledAbandons | internal/controller/agent_move.go:546-615 | A run of the model, every step of it allowed, that ends with the agent's memory on the copy and a Pod on the source |
| SampleRuns.StalledIsReached | internal/controller/agent_move.go:298-541 | A run from a cluster with nothing of the Agent to a move verified by passes that all stopped before the StatefulSet |
| RunProgress.RunClimbs | internal/controller/agent_move.go:404-627 | In every run a move's claim stays, what began the move is never rewritten, its phase only climbs and both ends are final, and each Job and each writing and removing of the link happened at most once |
| RunProgress.MoveWritesAreSpent | internal/controller/agent_move.go:684-717 | Every write a pass makes for the move it works on is counted off a measure of at most ten, whatever crashes repeat |
| Resume.MoveResumes | internal/controller/agent_move.go:546-627 | With nothing in between, a pass stopped anywhere but at the mark of a Job leaves after the next pass exactly what one unstopped pass would have left, record and id, links and contents |
| ResumeLater.MoveResumesLater | internal/controller/agent_move.go:404-717 | For every crash point of a pass over a move, and whatever the environment did before the next: the stop is one of five, and from each that wrote anything the memory follows, the next pass with the move still named refuses, settles or unlinks it in the record left, which differs in nothing else |
| ResumeLater.SwitchResumesLater | internal/controller/agent_move.go:546-615 | Stopped between link and phase, and whatever the environment did since: the next pass with the move still named writes the phase, and what the first Pod then decides, in the same record under the same id, which differs in nothing else |
| ResumeLater.RefusalResumesLater | internal/controller/agent_move.go:558-627 | Stopped between refusal and unlink, and whatever the environment did since: the next pass with the move still named takes the source's name off, once, and the record stays refused |
| MoveMeaning.SettleDecides | internal/controller/agent_move.go:558-661 | With the memory on the move's claim, a pass leaves the move refused, and its source named no more, if and only if the first Pod's agent ended now or before with a code other than 0; accepted if and only if that Pod and its agent are ready and it did not; switched otherwise; with the plan the workload is then built with |
| MoveMeaning.BeginDecides | internal/controller/agent_move.go:298-400 | A move is begun if and only if there is a copy image, today's StatefulSet or none, no Pod left, and a claim in use whose last writer stopped with code 0; its claim then names all of what it began from |
| MoveMeaning.CopyDecides | internal/controller/agent_move.go:476-501 | What each state of the copy's Job, or its absence, makes of the move: made once, waited for, recorded with the digest reported, or refused |
| MoveMeaning.VerifyDecides | internal/controller/agent_move.go:506-541 | And of the verification's: verified if and only if the three digests are one and no other entry is there |
| MoveMeaning.WaitsOrRefuses | internal/controller/agent_move.go:404-473 | A move that ended waits, as does any while a Pod is left; and a source whose UID or last writer is not as it was refuses it |
| MoveMeaning.SwitchDecides | internal/controller/agent_move.go:546-553 | A verified move whose source is as it was is linked and switched, and the workload let run on its claim |
| MoveMeaning.NoMoveNamed | internal/controller/agent_move.go:188-293 | With no move named nothing is written, and the agent is held exactly while some Job has not ended |
| MoveMeaning.ForeignHolds | internal/controller/agent_move.go:188-230 | A claim under the move's name that is not of this move, or a chain that cannot be followed, holds the agent and is left alone |
| Resume.MarkedOnlyIsRefused | internal/controller/agent_move.go:684-717 | A move stopped between a Job's mark and the Job is refused by the next pass that works on it, never given a second Job |
| Chain.InUseIsTheEnd | internal/controller/agent_move.go:236-269 | The agent is let run exactly when a chain of at most 63 links, all through claims of its own moves, leads from the StatefulSet's own claim to an end, and then it runs on that end; longer chains, cycles and foreign claims hold it |
| Chain.ChainClimbs | internal/controller/agent_move.go:872-894 | Along a reachable chain claims are ever newer, so none comes twice |
| Chain.RunChains | internal/controller/agent_move.go:236-269 | In every run no chain is cyclic, and an agent held for its chain has more than 63 moves in it |
| Chain.SwitchTakesOver | internal/controller/agent_move.go:404-448 | For every state in which a verified move would be linked, naming rule or not, over a chain of fewer than 64 claims: the move's claim comes into use if and only if its source is on the chain, otherwise the claim in use stays; and the memory is taken off a claim other than the source, a newer one, if and only if the source is on the chain and is not the claim in use |
| Chain.SwitchExtendsChain | internal/controller/agent_move.go:546-553 | Where the naming rule is kept, as in every run, a switch makes its claim the one in use if and only if the move began from the claim then in use |
| RenamedMove.RenamingLosesWrites | internal/controller/agent_move.go:404-448 | From that state the next whole pass puts the agent back on a claim without what it wrote since |
| RenamedMove.OnlyTheNamingIsBroken | internal/controller/agent_move.go:404-448 | A run of the model ends one step short of a state in which a move's id is named again after a later move switched; of the invariants only the one the naming rule keeps does not hold of that state |
| RenamedMove.SourceIsLeftBehind | internal/controller/agent_move.go:236-269 | In that state the source of the move named again is on the chain and is older than the claim in use |
| StoreSafety.RunIsOk | internal/definition/repository/memory.go:193-208 | In every reachable store revisions are numbered without a gap in one organization under published versions, positions are distinct and rising, each later revision has one applied request and each agent one registered creation, placements are one path, recoveries are staged and at most the last open, and one stop at most holds an agent |
| StoreTheorems.RevisionsAreProduced | internal/definition/repository/memory.go:445-454 | Every revision of every run is published, and produced by exactly one request, so what is found by walking a map is found once |
| StoreTheorems.PlacementsAreOnePath | internal/definition/definition.go:547-571 | For every sequence of registrations an agent's placements are one simple path, each but the first naming its predecessor with a non-empty evidence digest, ending at the only one not superseded |
| StoreTheorems.SupersededIsRefused | internal/definition/repository/memory.go:325-357 | A superseded placement is refused for ever after and is never current again |
| StoreTheorems.LatestRecoveryIsOpenOrLast | internal/definition/repository/memory_lifecycle.go:32-40 | The last recovery of a list is the open one where one is open, and every other is finalized |
| StoreTheorems.PreparedAlike | internal/definition/repository/memory_lifecycle.go:42-64 | Preparing under the recovery's own epoch always answers the body first prepared, the encoding of its own id and epoch; another epoch is refused and changes nothing |
| StoreTheorems.OneStopHolds | internal/definition/repository/memory_lifecycle.go:87-100 | At most one stop holds an agent in every reachable store |
| StoreMeaning.ConfigureSays | internal/definition/repository/memory.go:193-208 | The stored request, revision and positions, entry by entry: applied where the revision is the next, stale otherwise |
| StoreMeaning.RegisterSays | internal/definition/repository/memory.go:278-296 | A pending creation's outcome, the agent's first revision and its position in one change; every other case answered or refused with nothing changed |
| StoreMeaning.PlacedFirstSays | internal/definition/definition.go:547-571 | A Pod's first placement is stored if and only if it names none and none stands, or names with evidence the one that stands, which is superseded; each refusal has its reason and changes nothing |
| StoreMeaning.PlacedAgainSays | internal/definition/definition.go:547-571 | A Pod registered before is answered the placement it has, or refused as superseded or in conflict |
| StoreMeaning.ActivationSays | internal/definition/repository/memory.go:383-432 | An activation stored is what is read under its id, garam's answer to it what is read after, of it and as the agent's latest, and no other answer is taken |
| StoreMeaning.OpenSays | internal/definition/repository/memory_lifecycle.go:11-30 | A recovery is opened once for a console request, and never under an id used before nor beside one not finalized |
| StoreMeaning.PrepareSays | internal/definition/repository/memory_lifecycle.go:42-64 | The recovery named, and no other, is prepared under its own epoch with its own body |
| StoreMeaning.FinalizeSays | internal/definition/repository/memory_lifecycle.go:66-85 | The recovery named, and no other, is finalized with the very lineage given, at a new position; a finalized one is answered the lineage it has |
| StoreMeaning.StopSays | internal/definition/repository/memory_lifecycle.go:87-100 | A stop is stored as given, of the activation it names, where none holds the agent |
| StoreMeaning.StartSays | internal/definition/repository/memory_lifecycle.go:114-130 | The one stop that holds the agent ends under the start's own key and binding, and is answered ever after |
| StoreHistory.RunKept | internal/definition/repository.go:10-139 | Over every run no stored outcome, revision, published version, position, prepared body, lineage, activation request or answer, or end of a stop is ever rewritten, no placement is unsuperseded, and the position never decreases |
| Feed.PositionAccountsForFeed | internal/definition/repository/memory.go:220-255 | Over every run, for every operator and limit: the position never decreases, and where it stood still the page is the page it was, with revisions, settings, stops and open recoveries |
| Feed.OperationShows | internal/definition/repository/memory_lifecycle.go:11-130 | No single operation changes what any controller is shown without moving the position |
| Feed.OnePage | internal/definition/repository/memory.go:226-255 | Walking the agents in any order gives one page |
| Feed.AllShowable | internal/definition/repository/memory.go:226-255 | In every reachable store the profile version and the position a page looks up are in range |
| FeedMeaning.PageSays | internal/definition/repository/memory.go:226-255 | A page is read at the store's position; each entry is the latest revision of an agent assigned to the operator, with the settings at the version it names, whether a stop holds it, and its open recovery; they come in the order stored; and an agent assigned is missing only where the limit is reached by agents stored before it |
| FeedMeaning.PublishedIsShown | internal/definition/repository/memory.go:78-109 | In every run, an entry of any later page whose revision names a version of a profile carries the settings a publication was answered that version for |
| Feed.WaitPast | internal/distribution/desired.go:130-152 | Polling ends at the first position past the cursor or when the wait has passed, and is refused exactly on a position behind the cursor |
| Feed.WaitMissesNothing | internal/distribution/desired.go:90-152 | A corollary of the position's theorem: a controller waiting past the cursor it was given is never refused it, and a wait that ends with nothing moved would answer what it was answered |
| StopSafety.StopNamesLatest | internal/definition/stop.go:13-38 | In every interleaving of activation, stop and start requests, a stop that holds an agent names the agent's recorded latest activation |
| StopSafety.NoActivationWhileStopped | internal/execution/activation.go:88-101 | While a stop holds an agent no step stores or records an activation of it |
| StopSafety.RunIsSerialized | internal/definition/activation.go:22-54 | An activation under way is of an agent no stop holds, though a start takes no lock |
| EmbeddingSafety.RunKeepsEmbeddings | internal/definition/configure.go:13-71 | In every interleaving of configure requests, none ahead of its agent when checked, once a revision names an embedding every later one names the same base URL and name |
| EmbeddingSafety.SerializedKeeps | internal/definition/configure.go:54-71 | Checked on the store it is stored to, a request keeps the endpoint whatever revision it expects |
| EmbeddingAhead.BreaksExactlyWhenAhead | internal/definition/configure.go:13-71 | A request that passed its checks can break the endpoint, by requests each served in one step past their own checks before it is stored, if and only if at its check it was ahead of the agent and nothing the agent has already decides the check it will not be given |
| EmbeddingAhead.EarlyBreaks | internal/definition/configure.go:13-71 | A run from the empty store: a request passes its checks before its agent is made, the agent is created with an embedding, and the request stores a revision without one |
| Memory.SortByPosition | internal/definition/repository/memory.go:226-255 | The same entries, strictly by position |
| Service.CreateEndsOnce | internal/definition/create.go:18-72 | A creation asked again after it ended changes nothing and is only ever answered as it ended, whatever garam answers and its template says now |
| Service.CreatedIsChecked | internal/definition/create.go:18-72 | An agent newly created had no revision before, and has one: its template's configuration, which passed the check, under the controller and the epoch garam answered |
| ServiceMeaning.StoredSays | internal/definition/configure.go:13-48 | A configure request stores its own configuration and profile, one past the revision it expected, assigned as its binding was |
| ServiceMeaning.CheckSays | internal/definition/definition.go:93-118 | Which error a configuration is refused with, and which pass |
| ServiceMeaning.EmbeddingCheckSays | internal/definition/configure.go:54-71 | A configure request is refused for its embedding if and only if it is based on the latest revision of an agent of its organization, and drops or changes the endpoint that names |
| ServiceMeaning.CreateSays | internal/definition/create.go:18-72 | What garam's answer makes of a creation new or pending: its outcome stored, and the first revision with the template's configuration under the controller and epoch answered |
| ServiceMeaning.CreateAgainSays | internal/definition/create.go:18-72 | What a creation that ended is answered, for each of garam's answers, with nothing changed |
| ServiceMeaning.PrepareStores | internal/definition/activation.go:22-73 | An activation newly stored replaces the agent's recorded latest, and carries the reference of the one request its revision came from, unless the runtime's last report names that very revision under that very latest, and then none |
| ServiceMeaning.OneReference | internal/definition/activation.go:57-73 | That request's reference is one |
| ServiceMeaning.PrepareRefuses | internal/definition/activation.go:22-54 | A stopped agent, an id used before, an agent or a revision that is not there store nothing, each with its answer |
| ServiceMeaning.StopStores | internal/definition/stop.go:13-38 | The stop a request records is of its agent, under its key and binding, and of the activation read |
| Service.ReferenceIsFound | internal/definition/activation.go:57-73 | Every revision an agent has gives an operation reference |
| Service.ReferenceIsOne | internal/definition/activation.go:57-73 | And only one, in whatever order requests and creations are walked |
| Revisions.ParseUndoesString | internal/definition/definition.go:25-40 | A revision written and read again is itself, over the whole 64-bit range |
| Revisions.StringUndoesParse | internal/definition/definition.go:31-40 | What parses is exactly what some revision of 1 or more is written as, and writing it again gives it back |
| Revisions.StringSays | internal/definition/definition.go:25-27 | A revision is written in decimal digits |
| Puller.KeyIsOne | internal/desired/puller.go:170-176 | Two entries have one key exactly when they have one revision and are both stopped or both not |
| Puller.KeyDecidesSpec | internal/desired/renderer/agent.go:104-179 | In every run of the store, two entries of one agent under one key render to the same spec, with or without an open recovery |
| Puller.CacheIsRightIffReported | internal/desired/puller.go:64-166 | In every run of the puller, restarts and lost answers among it, on what a run of the store answers: an entry the cache passes over is what the Agent says if and only if the agent was not written without being reported after it was last written and reported |
| Puller.AcceptedRenders | internal/desired/renderer/agent.go:146-179 | A model renders if and only if its configuration passes the control service's check and it names a provider, a base URL and a name, or no model at all |
| Puller.AcceptedMayNotRender | internal/definition/definition.go:93-118 | A configuration that passes the check and does not render: the mock with no base URL and no name |
| PullerMeaning.SpecSays | internal/desired/renderer/agent.go:104-211 | An entry renders to the one spec whose every field is the manager's image, the entry's settings, model, ego, tools, identity, epoch, revision and stop, and to none where there is none |
| PullerMeaning.RenderSays | internal/desired/renderer/agent.go:48-100 | A render writes the spec its entry renders to, of its own agent alone, and never that of an Agent a person made |
| PullerMeaning.EntrySays | internal/distribution/desired.go:176-218 | An entry carries what the page shows of the agent |
| PullerMeaning.ApplySays | internal/desired/puller.go:137-176 | An entry is passed over exactly where its key is cached, and its key cached exactly where it was written and reported |
| Puller.AppliedIsRendered | internal/desired/puller.go:137-166 | An entry written leaves the Agent saying what it does |
| Puller.UnreportedStopSticks | internal/desired/puller.go:137-166 | A run of the puller: an agent rendered and reported, a stop rendered and not reported, then a start, which is passed over and leaves the Agent stopped |
| CredentialSecret.RefreshIsOfLineage | internal/garam/refresher.go:105-184 | In every interleaving of passes, refused and unanswered writes, retries, recoveries and restarts, a credential Secret placed at the start holds, under a refresh time, tokens minted after its last recovery |
| CredentialSecret.CreatedIsOldIffStranded | internal/garam/constructor/tokens.go:101-122 | In every run, a Secret the refresher creates holds tokens older than the last recovery if and only if a recovery ran with none placed while a token minted before it was unwritten, the manager was not started again since, and every pass that took up what was unwritten found the token living |
| CredentialSecret.RefreshIsOldIffStranded | internal/desired/credential/recovery.go:81-106 | In every run, placed or not, a Secret with a refresh time holds a token older than the last recovery if and only if it was so created and neither written nor patched since |
| CredentialSecret.MintsOneAtATime | internal/garam/refresher.go:152-184 | While the Secret's version, or its absence, and the life of garam's token last, at most one token is minted and kept for each audience |
| CredentialSecret.MintsAgainstMismatches | internal/garam/refresher.go:186-199 | Of every token garam mints for the Secret's version in the life of garam's token, discarded ones counted, there is at most one more for an audience than were minted at another epoch than the spec's |
| CredentialSecret.UnplacedKeepsOldTokens | internal/garam/refresher.go:152-184 | A run with no Secret placed: minted, not written, recovered, retried, and created with a refresh time from tokens of the lineage the recovery ended |
| Refresher.PassIsPerAgent | internal/garam/refresher.go:106-146 | What a pass leaves of an agent is what its own turn leaves, whatever is answered for the others |
| Refresher.RetryMintsNothing | internal/garam/refresher.go:152-184 | A retry of tokens minted against the version still read asks garam for none, and a refused write leaves what is kept as it was |
| RefresherMeaning.RefreshSays | internal/garam/refresher.go:152-184 | What each of garam's answers and the write's leaves kept, and which failure is the turn's |
| RefresherMeaning.TurnSays | internal/garam/refresher.go:106-134 | A turn not due or waiting does nothing, and a failure waits 300 seconds where garam refused the agent or its epoch, 30 otherwise |
| RefresherMeaning.PassForgets | internal/garam/refresher.go:135-146 | After a pass nothing is kept of an agent it did not list |
| Streak.FieldsDescribeHistory | internal/machinetoken/health.go:42-83 | For every history the three fields are the run that is open: since its first failure, with its last error, by a call exactly where a refused call is in it; a call answered ends any run, an exchange only one without a refused call |
| Streak.CheckFailsOnLongRun | internal/machinetoken/health.go:74-83 | The check fails if and only if a run is open whose first failure is more than an hour old |
| MachineToken.AnsweredIsLive | internal/machinetoken/source.go:92-150 | A credential answered is the token and client id of one exchange, and unexpired if and only if that exchange's lifetime, in 64 bits, is positive |
| MachineToken.LifetimeIsPositive | internal/machinetoken/source.go:130-150 | A lifetime is kept as answered if and only if it is at most 9,223,372,036 seconds, and any lifetime is positive if and only if its nanoseconds, modulo 2^64, lie strictly between 0 and 2^63 |
| MachineToken.LongLifetimeExpires | internal/machinetoken/source.go:92-150 | A lifetime of 9,223,372,037 seconds: the source answers the token, and takes it to have expired already |
| MachineToken.ExchangeKeeps | internal/machinetoken/source.go:92-150 | Whatever is asked and answered, after each exchange the fields are those of the whole sequence of exchanges: the token, client id and times of the last answer, the failures since it, and every exchange after a failed one sent no earlier than that failure's wait allowed |
| MachineToken.SendsNoEarlier | internal/machinetoken/source.go:92-106 | No exchange is sent before the wait the last failure recorded is over |
| MachineToken.BackoffDoubles | internal/machinetoken/source.go:130-150 | The wait after k failures in a row without Retry-After is min(2^(k-1) seconds, 5 minutes) for every k |
| TokenMeaning.WaitsAsAsked | internal/machinetoken/source.go:130-150 | After a failure answered Retry-After n, up to 9,223,372,036 seconds, an exchange is sent exactly from n seconds later on |
| TokenMeaning.WaitsDoubling | internal/machinetoken/source.go:130-150 | With none, or none above 0, it is sent exactly from 2^(k-1) seconds after the k-th failure in a row, or five minutes |
| TokenMeaning.WaitsWrapped | internal/machinetoken/source.go:227-234 | A longer Retry-After waits what 64 bits keep of its nanoseconds where that is above 0, and as if there were none where it is not |
| TokenMeaning.HoldsTwoThirds | internal/machinetoken/source.go:92-150 | A token answered is presented, with its client id and no exchange, through exactly the first two thirds of its seconds |
| TokenMeaning.PresentsToTheEnd | internal/machinetoken/source.go:92-126 | Where no exchange may be sent or one fails, it is presented to the end of them, and the last failure answered after |
| TokenMeaning.PresentsWithoutToken | internal/machinetoken/source.go:92-126 | With none held, what is answered is the new token or the failure |
| TokenMeaning.DropsWhatIsHeld | internal/machinetoken/source.go:109-115 | Dropping the token held forgets it alone, and dropping another changes nothing |
| Template.PathIndependent | internal/controller/agent_statefulset.go:541-691 | After any sequence of inputs, failed ones among them, the template is one application of the last to an empty one, claim templates aside |
| Template.Idempotent | internal/controller/agent_statefulset.go:541-691 | Applying an input again changes nothing |
| Template.LastInputDecides | internal/controller/agent_statefulset.go:541-691 | From any reached template, the last input decides all but the claim templates, which the first one does |
| Template.InitContainersInOrder | internal/controller/agent_statefulset.go:744-980 | The init containers are none, config alone, or config, outbox and adapter in that order |
| Template.MountsResolveOnce | internal/controller/agent_statefulset.go:441-691 | Every mount of every container resolves to exactly one volume or claim template, for any plan the StatefulSet is not replaced for |
| TemplateMeaning.ContainersSay | internal/controller/agent_statefulset.go:541-691 | The containers of any reached template after an input, in full: the agent's image, arguments, environment and mounts, and the workspace's |
| TemplateMeaning.InitContainersSay | internal/controller/agent_statefulset.go:744-980 | The init containers in full: what the config container writes, the outbox, and the adapter with its addresses, files and mounts |
| TemplateMeaning.VolumesSay | internal/controller/agent_statefulset.go:541-600 | The volumes in full, each where its condition holds |
| TemplateMeaning.ConditionsSay | internal/controller/agent_statefulset.go:744-780 | When an adapter, an issuer and a config file are built, and when the pass fails |
| TemplateMeaning.RestSays | internal/controller/agent_statefulset.go:541-570 | The replicas, and the claim templates only where the object is made |
| TemplateMeaning.ReplaceSays | internal/controller/agent_statefulset.go:441-468 | When the StatefulSet is replaced for its claim template, and when it mounts its own claim by name |
| AgentReconciler.Reconciler.CollectWriters | internal/controller/agent_fence.go:280-299 | The restartable init containers and all containers, in the order they are read |
| AgentReconciler.Reconciler.ReadWriters | internal/controller/agent_fence.go:280-345 | Reading writers one by one up to the first that does not count as stopped gives the verdict on all of them |
| AgentReconciler.Reconciler.AgentExitOf | internal/controller/agent_fence.go:532-554 | The agent's exit recorded is that of the last entry of its name |
| AgentReconciler.Reconciler.Release | internal/controller/agent_fence.go:130-173 | The four writes of a release in order, stopping at the first that fails |
| AgentReconciler.Reconciler.RecordPlacementOf | internal/controller/agent_fence.go:397-431 | The claim learns of its writer before the Pod is marked with the claim |
| AgentReconciler.Reconciler.TendFence | internal/controller/agent_fence.go:92-123 | The objects and the answer after one reading of the fence, at every crash point |
| AgentReconciler.Reconciler.FindStateInUse | internal/controller/agent_move.go:236-269 | The loop over the chain ends and answers the claim in use, or holds |
| AgentReconciler.Reconciler.FindJobRunning | internal/controller/agent_move.go:276-293 | Whatever order Jobs are listed in, the answer is whether one has not ended |
| AgentReconciler.Reconciler.Begin | internal/controller/agent_move.go:298-400 | A move's claim is created only with a copy image, the Pod gone, and a source that drained cleanly |
| AgentReconciler.Reconciler.EnsureMoveJob | internal/controller/agent_move.go:684-717 | Mark first, Job second; a mark without its Job is refused |
| AgentReconciler.Reconciler.CopyMemory | internal/controller/agent_move.go:476-501 | The copy's digest is recorded in the write of the phase that follows it |
| AgentReconciler.Reconciler.VerifyCopy | internal/controller/agent_move.go:506-541 | A copy is verified only where the three digests are one and the target holds nothing else |
| AgentReconciler.Reconciler.NameTarget | internal/controller/agent_move.go:872-894 | The link is put on or taken off in one write, and not written where it stands |
| AgentReconciler.Reconciler.Settle | internal/controller/agent_move.go:558-615 | What the first Pod on the copy decides, and what it leaves of the source, at every crash point |
| AgentReconciler.Reconciler.Switch | internal/controller/agent_move.go:546-553 | The link before the phase |
| AgentReconciler.Reconciler.Advance | internal/controller/agent_move.go:404-448 | The step of the recorded phase, once the Pod is gone and the source unchanged, or a refusal |
| AgentReconciler.Reconciler.TendMove | internal/controller/agent_move.go:188-230 | The objects and the plan after a pass's part for the move, at every crash point |
| AgentReconciler.Reconciler.TendStatefulSet | internal/controller/agent_statefulset.go:258-291 | A StatefulSet in the shared shape, or whose template makes a claim the memory left, is replaced; otherwise replicas, mount and the store requirement become what the plan asks |
| AgentReconciler.Reconciler.TakeDown | internal/controller/agent_controller.go:137-170 | A deleting Agent keeps its finalizer until the fence is read, the StatefulSet deleted and the Pod gone |
| AgentReconciler.Reconciler.ReconcileAgent | internal/controller/agent_controller.go:81-129 | One whole reconcile, fence, move, workload, to its end or to the write that fails |
| Memory.Memory.Configure | internal/definition/repository/memory.go:193-208 | The whole new store and the answer: an old request answered as it ended, an unknown agent refused, and otherwise applied at a new position or stored as stale |
| Memory.Memory.Desired | internal/definition/repository/memory.go:226-255 | The page answered is the first of everything owed to the operator in the order stored, whatever order the agents were walked in |
| Memory.Memory.RegisterCreation | internal/definition/repository/memory.go:278-296 | The agent's first revision and the creation's outcome in one change, once |
| Memory.Memory.FailCreation | internal/definition/repository/memory.go:298-311 | A pending creation fails; one that ended is answered as it ended |
| Memory.Memory.CreationOf | internal/definition/repository/memory.go:314-323 | The one creation that registered the agent, in whatever order creations are walked |
| Memory.Memory.RegisterPlacement | internal/definition/repository/memory.go:325-357 | The predecessor superseded and the new placement stored in one change, a repeat answered, and every refusal changing nothing |
| Memory.Memory.RecordActivation | internal/definition/repository/memory.go:408-422 | garam's answer kept with the request and as the agent's latest, and another answer refused |
| Memory.Memory.ConfigureReference | internal/definition/repository/memory.go:445-454 | The reference of the one request that applied the revision, in whatever order requests are walked |
| Memory.Memory.RecordRecovery | internal/definition/repository/memory_lifecycle.go:11-30 | A console request opens one recovery, is answered it again, and is refused beside an open one or under a used id |
| Memory.Memory.PrepareRecovery | internal/definition/repository/memory_lifecycle.go:42-64 | The whole new store and the answer at each stage |
| Memory.Memory.FinalizeRecovery | internal/definition/repository/memory_lifecycle.go:66-85 | The lineage and the stage in one change that moves the position, once |
| Memory.Memory.RecordStop | internal/definition/repository/memory_lifecycle.go:87-100 | A stop stored where none holds the agent, a repeat answered as stored |
| Memory.Memory.RecordStart | internal/definition/repository/memory_lifecycle.go:114-130 | The stop that holds the agent ended under the start's key, a repeat answered with the stop it ended |
| Service.Service.Configure | internal/definition/configure.go:13-48 | The whole new store, and the answer read off the request as it is then stored: the revision it applied, stale, reused under another binding, or none for an agent of another organization; a configuration that fails its check, an unpublished profile or a refused endpoint stores nothing, in that order |
| Service.Service.CreateAgent | internal/definition/create.go:18-72 | What the template, its check, the profile and garam's answer make of a creation that is new, pending, registered, failed or of another request under its key |
| Service.Service.Stop | internal/definition/stop.go:13-38 | The whole new store, and the answer read off the stop then stored under the key: first or repeated for the same agent and binding, reused otherwise, and none where another stop holds the agent; a stop newly stored names the latest activation and holds an agent none held |
| Service.Service.Start | internal/definition/stop.go:48-60 | The whole new store, and the answer read off the stop the key then ended: this agent's under this binding, reused otherwise, or none where no stop held the agent |
| Service.Service.PrepareActivation | internal/definition/activation.go:22-54 | A stopped agent, an unknown revision or a reused id stores nothing; an activation is stored with the anchor and reference every attempt sends |
| Puller.Puller.ApplyEntry | internal/desired/puller.go:137-166 | Only a render that was written and reported enters the cache |
| Puller.Puller.RenderEntry | internal/desired/renderer/agent.go:48-100 | One write of the Agent or none, and none of one a person made |
| Refresher.Refresher.Refresh | internal/garam/refresher.go:106-146 | The two maps after a pass over every holder, and what is dropped of agents no longer listed |
| Refresher.Refresher.RefreshAgent | internal/garam/refresher.go:152-184 | Each token is remembered once minted and forgotten once written |
| MachineToken.Source.Credential | internal/machinetoken/source.go:92-106 | What is answered and kept, against the sequence of all exchanges sent and the history of all events |
| MachineToken.Source.Invalidate | internal/machinetoken/source.go:109-115 | Only the token held is dropped |
| MachineToken.Source.ObserveCall | internal/machinetoken/health.go:138-146 | A call answered 5xx or not at all is no event; 401 is a refusal, anything else ends the run |
| Template.AgentStatefulSet.ApplyAgent | internal/controller/agent_statefulset.go:541-691 | The lists rewritten in place end as that one application, and where an error stops the pass, half rewritten, up to the config file |
| Template.AgentStatefulSet.CreateOrUpdate | internal/controller/agent_statefulset.go:258-291 | The stored object after a reconcile is one application, or what it was where the pass fails |
| Template.AgentStatefulSet.ContainerNamed | internal/controller/agent_statefulset.go:1021-1031 | The first container of the name, or one appended, and where it is |
| Template.AgentStatefulSet.ApplyConfig | internal/controller/agent_statefulset.go:744-811 | The config container, its volumes and its mount in the agent's container, or none of them |
| Template.AgentStatefulSet.ApplyAdapter | internal/controller/agent_statefulset.go:870-921 | The adapter where one is built, and none otherwise |
| Template.AgentStatefulSet.ApplyOutbox | internal/controller/agent_statefulset.go:962-980 | The outbox container beside the adapter only |

## Left out

- SwitchSafety.TouchedNeverSwitches: speaks of a Pod created before the move is linked; a Pod created on the source after it is `Abandoned`'s, which says exactly when there can be one.
- Resume.MoveResumes: nothing happens between the two passes, and the stopped one did not make the chain longer than the 64 claims that are followed, which would hold the agent; `ResumeLater.MoveResumesLater` lets the environment go on in between.
- FenceSafety.ReleaseResumes: nothing happens between the two passes; `ResumeLater.ReleaseResumesLater` lets the environment go on.
- CredentialSecret.MintsOneAtATime: counts the tokens kept, and `MintsAgainstMismatches` all of them; the history starts again when the manager restarts or lists the agents without this one, since what was minted is then forgotten.
- Cluster reads: a reconcile reads every object as it stands at its start plus its own writes; a stale cache, and steps of others between two writes of one pass, are not modelled, but a pass may stop after any write.
- The fence against hands: deleted or edited claims, and finalizers taken off by a person.
- `rollOutdatedPod`: a Pod it deletes is one the environment may delete at any time.
- The move's Jobs: their scripts and messages; a copy may write its target until it ends, and a verification that exits 0 reports digests that are true.
- Conditions, messages, requeue times, status subresources and owner references of every object.
- The placement token's value and its digest, and the encoding of evidence: fresh values and the evidence itself.
- Init containers that run to completion are not counted as writers, as in the source.
- `Template`: the descriptor's texts (config file, arguments, environment, paths) are given as rendered; security contexts, labels, the lineage annotation, finalizers and the grace period are not in it.
- PostgreSQL, HTTP parsing and status mapping; positions are unbounded integers, and the revisions of a feed are taken to fit 64 bits.
- `ExecutionSettings.check` and quantities in more than one written form: settings are one value, compared as a value. Which strings refer to a secret is a parameter.
- Agent statuses and runtime status reports (`RecordStatus`, `RecordRuntimeStatus`), publications, operators, images and contacts; what is published under a template's reference is a parameter.
- The recoverer's attempts, backoff and offers, and the deletion of a recovery's saved request after its Secret was patched.
- The puller's loop and its cursor backoff; each entry's render and report is one step with any outcome.
- The activation lock is at most one holder for each agent; how a request waits for it is not modelled, nor is garam's own order of answers: the latest activation recorded is not claimed to be monotone.
- JSON, RFC 8785 and SHA-256 are injective: a recovery's body is what it encodes.
- The refresher's rounding of when tokens are due is any time.
