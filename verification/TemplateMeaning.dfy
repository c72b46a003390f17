/** The whole template an input leaves of any reached one, name by name and value by value. */
module TemplateMeaning {
  import opened Options
  import opened Template

  ghost predicate HasAdapter(i: Input) {
    i.adapterImage != "" && i.garamAddress != "" && i.controlAddress != "" && i.grn.Some?
  }

  ghost predicate HasConfig(i: Input) {
    i.tools != map[] || i.model.Some? || i.revision != "" || i.ego != "" || HasAdapter(i)
  }

  ghost predicate TrustsIssuer(i: Input) {
    HasAdapter(i) && i.garamIssuer != ""
  }

  /** A config file is written for tools, a model, a revision, an ego, or an adapter, whose instructions and
      control root are beside it; and the pass fails where the root or the file is not to be had. */
  lemma ConditionsSay(i: Input)
    ensures (AdapterBuilt(i) <==> HasAdapter(i)) && (HasIssuer(i) <==> TrustsIssuer(i)) && (Declares(i) <==> HasConfig(i))
    ensures Fails(i) <==> (HasAdapter(i) && i.controlRootFile.None?) || (HasConfig(i) && i.configFile.None?)
  {
  }

  ghost function OnlyIf<T>(c: bool, x: T): seq<T> {
    if c then [x] else []
  }

  /** The state claim where one is mounted by name, the Secrets of the adapter, the root to trust its issuer by,
      and the directories the config container fills. */
  lemma VolumesSay(t: Template, i: Input)
    requires !Fails(i)
    ensures Applied(t, i).volumes ==
              OnlyIf(i.claim.Some?, Volume("state", ClaimNamed(if i.claim.Some? then i.claim.value else "")))
              + (OnlyIf(HasAdapter(i), Volume("credentials", SecretNamed(i.credentialsSecret, [])))
                 + OnlyIf(HasAdapter(i), Volume("placement", SecretNamed(i.placementSecret, []))))
              + OnlyIf(TrustsIssuer(i), Volume("server-root", SecretNamed(i.credentialsSecret, ["server-root.pem"])))
              + (OnlyIf(HasConfig(i), Volume("config", EmptyDir)) + OnlyIf(HasAdapter(i), Volume("control-root", EmptyDir)))
  {
    ConditionsSay(i);
    VolumeParts(i);
  }

  lemma VolumeParts(i: Input)
    ensures ClaimVolumes(i) == OnlyIf(i.claim.Some?, Volume("state", ClaimNamed(if i.claim.Some? then i.claim.value else "")))
    ensures AdapterVolumes(i) == OnlyIf(AdapterBuilt(i), Volume("credentials", SecretNamed(i.credentialsSecret, [])))
                                 + OnlyIf(AdapterBuilt(i), Volume("placement", SecretNamed(i.placementSecret, [])))
    ensures IssuerVolumes(i) == OnlyIf(HasIssuer(i), Volume("server-root", SecretNamed(i.credentialsSecret, ["server-root.pem"])))
    ensures ConfigVolumes(i) == OnlyIf(Declares(i), Volume("config", EmptyDir)) + OnlyIf(AdapterBuilt(i), Volume("control-root", EmptyDir))
  {
  }

  ghost function AgentContainer(i: Input): Container {
    Container("agent", i.image, [], i.agentArgs, i.agentEnv + OnlyIf(HasConfig(i), (i.configHomeVariable, i.configPath)),
              [Mount("state", i.statePath, false, "")]
              + OnlyIf(TrustsIssuer(i), Mount("server-root", i.credentialsPath, true, ""))
              + OnlyIf(HasConfig(i), Mount("config", i.configPath, true, "")),
              false, i.resources)
  }

  ghost function WorkspaceContainer(i: Input): Container {
    Container("workspace", i.workspaceImage, [], [], i.workspaceEnv, [Mount("workspace", i.statePath, false, "")], false, "")
  }

  /** One agent container of the agent's image, and a workspace beside it where there is an image of one. */
  lemma ContainersSay(t: Template, i: Input)
    requires Reached(t) && !Fails(i)
    ensures Applied(t, i).containers == [AgentContainer(i)] + OnlyIf(i.workspaceImage != "", WorkspaceContainer(i))
  {
    ConditionsSay(i);
    ContainersDecide(t, i);
    assert AgentOf(Empty(AGENT), i) == AgentContainer(i);
  }

  ghost function ConfigContainer(i: Input): Container {
    Container("config", i.copyImage, i.writeConfig, [],
              [("AGENT_CONFIG_CONTENT", if i.configFile.Some? then i.configFile.value else "")]
              + OnlyIf(i.ego != "", ("AGENT_EGO_CONTENT", i.ego))
              + OnlyIf(HasAdapter(i) && i.replyInstruction != "", ("AGENT_INSTRUCTIONS_CONTENT", i.replyInstruction))
              + OnlyIf(HasAdapter(i), ("AGENT_CONTROL_ROOT_CONTENT", if i.controlRootFile.Some? then i.controlRootFile.value else "")),
              [Mount("config", i.configPath, false, "")] + OnlyIf(HasAdapter(i), Mount("control-root", "/run/garam/control", false, "")),
              false, "")
  }

  ghost function OutboxContainer(i: Input): Container {
    Container("outbox", i.copyImage, i.makeOutbox, [], [], [Mount("state", "/run/garam/state", false, "")], false, "")
  }

  ghost function AdapterContainer(i: Input): Container {
    Container("adapter", i.adapterImage, [], ["adapter"],
              [("GARAM_ADAPTER_AGENT", if i.grn.Some? then i.grn.value else ""),
               ("GARAM_ADAPTER_MACHINE_URL", "https://" + i.garamAddress),
               ("GARAM_ADAPTER_GATEWAY_URL", "http://" + i.gatewayAddress),
               ("GARAM_ADAPTER_TOKEN_FILE", "/run/garam/credentials/token"),
               ("GARAM_ADAPTER_SERVER_ROOT_FILE", "/run/garam/credentials/server-root.pem"),
               ("GARAM_ADAPTER_CONTROL_URL", "https://" + i.controlAddress),
               ("GARAM_ADAPTER_CONTROL_ROOT_FILE", "/run/garam/control/root.pem"),
               ("GARAM_ADAPTER_CONTROL_TOKEN_FILE", "/run/garam/credentials/control-token"),
               ("GARAM_ADAPTER_PLACEMENT_TOKEN_FILE", "/run/garam/placement/token"),
               ("GARAM_ADAPTER_OUTBOX_DIR", "/run/garam/outbox")],
              [Mount("credentials", "/run/garam/credentials", true, ""), Mount("placement", "/run/garam/placement", true, ""),
               Mount("control-root", "/run/garam/control", true, ""), Mount("state", "/run/garam/outbox", false, i.outboxDir)],
              true, "")
  }

  lemma Paths()
    ensures CREDENTIALS_PATH + "/" + TOKEN_KEY == "/run/garam/credentials/token"
    ensures CREDENTIALS_PATH + "/" + SERVER_ROOT_KEY == "/run/garam/credentials/server-root.pem"
    ensures CREDENTIALS_PATH + "/" + CONTROL_TOKEN_KEY == "/run/garam/credentials/control-token"
    ensures CONTROL_ROOT_PATH + "/" + CONTROL_ROOT_FILE == "/run/garam/control/root.pem"
    ensures PLACEMENT_PATH + "/" + TOKEN_KEY == "/run/garam/placement/token"
  {
  }

  lemma AdapterSays(i: Input)
    ensures AdapterOf(Empty(ADAPTER), i) == AdapterContainer(i)
  {
    Paths();
    assert AdapterOf(Empty(ADAPTER), i).env == AdapterContainer(i).env;
    assert AdapterOf(Empty(ADAPTER), i).mounts == AdapterContainer(i).mounts;
  }

  lemma ConfigSays(i: Input)
    requires !Fails(i)
    ensures ConfigOf(Empty(CONFIG), i) == ConfigContainer(i)
  {
    ConditionsSay(i);
    assert ConfigOf(Empty(CONFIG), i).env == ConfigContainer(i).env;
    assert ConfigOf(Empty(CONFIG), i).mounts == ConfigContainer(i).mounts;
  }

  lemma InitParts(i: Input)
    ensures InitContainersOf(i) == OnlyIf(Declares(i), ConfigOf(Empty(CONFIG), i))
              + OnlyIf(AdapterBuilt(i), OutboxContainer(i)) + OnlyIf(AdapterBuilt(i), AdapterOf(Empty(ADAPTER), i))
  {
    assert OutboxOf(Empty(OUTBOX), i) == OutboxContainer(i);
  }

  /** The config container where there is a config file, and the outbox and the adapter where one is built. */
  lemma InitContainersSay(t: Template, i: Input)
    requires Reached(t) && !Fails(i)
    ensures Applied(t, i).initContainers == OnlyIf(HasConfig(i), ConfigContainer(i))
              + OnlyIf(HasAdapter(i), OutboxContainer(i)) + OnlyIf(HasAdapter(i), AdapterContainer(i))
  {
    ConditionsSay(i);
    InitDecides(t, i);
    InitParts(i);
    ConfigSays(i);
    AdapterSays(i);
  }

  /** One replica, unless the agent is suspended, stopped or held; and the claim templates only where the object
      is made: the workspace's, and the state's where no claim is mounted by name. */
  lemma RestSays(t: Template, i: Input)
    requires !Fails(i)
    ensures Applied(t, i).created && Applied(t, i).replicas == (if i.suspended || i.stopped || i.hold then 0 else 1)
    ensures Applied(t, i).claimTemplates == if t.created then t.claimTemplates else OnlyIf(i.claim.None?, "state") + ["workspace"]
  {
  }

  /** A StatefulSet whose own template makes the state claim is replaced once another is to be mounted by name;
      one that lost it mounts its own claim by name; and any other takes the plan as it is. */
  lemma ReplaceSays(t: Template, plan: StatePlan, own: string)
    ensures ReplaceStateTemplate(t, plan, own) ==
              if t.created && "state" in t.claimTemplates && plan.claim.Some? then None
              else if t.created && "state" !in t.claimTemplates && plan.claim.None? then Some(StatePlan(Some(own), plan.hold))
              else Some(plan)
  {
  }

  /** What an error stops halfway is everything before the config file. */
  lemma HalfSays(t: Template, i: Input)
    requires Reached(t)
    ensures Half(t, i).initContainers == t.initContainers && Half(t, i).created == t.created
    ensures Half(t, i).volumes == ClaimVolumes(i) + AdapterVolumes(i) + IssuerVolumes(i)
    ensures Half(t, i).replicas == (if i.suspended || i.stopped || i.hold then 0 else 1)
    ensures Half(t, i).containers != [] && Half(t, i).containers[0].name == "agent" && Half(t, i).containers[0].image == i.image
    ensures Half(t, i).containers[1..] == (if t.containers == [] then [] else t.containers[1..])
  {
    if t.containers != [] {
      var was :| DecidedBy(t, was);
      IndexIs(t.containers, AGENT, 0);
    }
  }

  lemma FailedSays(t: Template, i: Input)
    requires Fails(i)
    ensures Applied(t, i) == t
  {
  }
}
