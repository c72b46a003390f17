/**
  The StatefulSet an Agent describes: its volumes, its init containers and containers, and its claim
  templates, as a reconcile rewrites them in place. What no Agent names of a container is left as it is.
 */
module Template {
  import opened Options

  // ---- The parts of a Pod template ----

  datatype Mount = Mount(volume: string, path: string, readOnly: bool, subPath: string)

  datatype Source = ClaimNamed(claim: string) | SecretNamed(secret: string, items: seq<string>) | EmptyDir

  datatype Volume = Volume(name: string, source: Source)

  datatype Container = Container(
    name: string, image: string, command: seq<string>, args: seq<string>, env: seq<(string, string)>, mounts: seq<Mount>,
    restartsAlways: bool, resources: string)

  datatype Template = Template(
    created: bool, replicas: nat, volumes: seq<Volume>, initContainers: seq<Container>, containers: seq<Container>,
    claimTemplates: seq<string>)

  const EMPTY := Template(false, 0, [], [], [], [])

  const AGENT := "agent"
  const CONFIG := "config"
  const OUTBOX := "outbox"
  const ADAPTER := "adapter"
  const WORKSPACE := "workspace"
  const STATE := "state"
  const CREDENTIALS := "credentials"
  const PLACEMENT := "placement"
  const SERVER_ROOT := "server-root"
  const CONTROL_ROOT := "control-root"

  const CREDENTIALS_PATH := "/run/garam/credentials"
  const PLACEMENT_PATH := "/run/garam/placement"
  const CONTROL_ROOT_PATH := "/run/garam/control"
  const OUTBOX_PATH := "/run/garam/outbox"
  const OUTBOX_STATE_PATH := "/run/garam/state"
  const TOKEN_KEY := "token"
  const CONTROL_TOKEN_KEY := "control-token"
  const SERVER_ROOT_KEY := "server-root.pem"
  const CONTROL_ROOT_FILE := "root.pem"

  // ---- What decides them ----

  /** What a reconcile builds from: the manager's flags and files, the Agent's spec, its type's
      descriptor, and the plan for its state. A text the descriptor renders is given as rendered. */
  datatype Input = Input(
    copyImage: string, adapterImage: string, garamAddress: string, controlAddress: string, garamIssuer: string,
    workspaceImage: string, controlRootFile: Option<string>,
    image: string, resources: string, grn: Option<string>, ego: string, tools: map<string, string>, model: Option<string>,
    revision: string, suspended: bool, stopped: bool, credentialsSecret: string, placementSecret: string,
    statePath: string, credentialsPath: string, configPath: string, outboxDir: string, gatewayAddress: string,
    replyInstruction: string, configFile: Option<string>, writeConfig: seq<string>, makeOutbox: seq<string>,
    agentArgs: seq<string>, agentEnv: seq<(string, string)>, configHomeVariable: string, workspaceEnv: seq<(string, string)>,
    claim: Option<string>, hold: bool)

  predicate AdapterBuilt(i: Input) {
    i.adapterImage != "" && i.garamAddress != "" && i.controlAddress != "" && i.grn.Some?
  }

  predicate HasIssuer(i: Input) {
    i.garamIssuer != "" && AdapterBuilt(i)
  }

  function Instructions(i: Input): string {
    if AdapterBuilt(i) then i.replyInstruction else ""
  }

  /** A config file is written where anything of it is declared, and wherever there is a control root. */
  predicate Declares(i: Input) {
    || i.tools != map[] || i.model.Some? || i.revision != "" || i.ego != "" || Instructions(i) != ""
    || AdapterBuilt(i) || HasIssuer(i)
  }

  /** The control root cannot be read, or the config file not rendered: an error of the pass. */
  predicate Fails(i: Input) {
    (AdapterBuilt(i) && i.controlRootFile.None?) || (Declares(i) && i.configFile.None?)
  }

  function Empty(name: string): Container {
    Container(name, "", [], [], [], [], false, "")
  }

  // ---- The lists ----

  /** The first container of the name, or one appended. */
  function IndexOf(cs: seq<Container>, name: string): (k: nat)
    ensures k <= |cs| && (k < |cs| ==> cs[k].name == name) && forall j | 0 <= j < k :: cs[j].name != name
  {
    if cs == [] then 0 else if cs[0].name == name then 0 else 1 + IndexOf(cs[1..], name)
  }

  function Ensured(cs: seq<Container>, name: string): seq<Container> {
    if IndexOf(cs, name) < |cs| then cs else cs + [Empty(name)]
  }

  function Named(cs: seq<Container>, name: string): Container {
    if IndexOf(cs, name) < |cs| then cs[IndexOf(cs, name)] else Empty(name)
  }

  function With(cs: seq<Container>, c: Container): (r: seq<Container>)
    ensures |r| >= |cs|
  {
    var k := IndexOf(cs, c.name);
    if k < |cs| then cs[k := c] else cs + [c]
  }

  function Without(cs: seq<Container>, name: string): seq<Container> {
    if cs == [] then []
    else
      var rest := Without(cs[..|cs| - 1], name);
      if cs[|cs| - 1].name == name then rest else rest + [cs[|cs| - 1]]
  }

  // ---- What is written of each container ----

  /** The agent's container before its config file is mounted. */
  function BareAgentOf(was: Container, i: Input): Container {
    was.(image := i.image, resources := i.resources, args := i.agentArgs,
         mounts := [Mount(STATE, i.statePath, false, "")]
                   + (if HasIssuer(i) then [Mount(SERVER_ROOT, i.credentialsPath, true, "")] else []),
         env := i.agentEnv)
  }

  function WithConfigMount(c: Container, i: Input): Container {
    if Declares(i)
    then c.(mounts := c.mounts + [Mount(CONFIG, i.configPath, true, "")], env := c.env + [(i.configHomeVariable, i.configPath)])
    else c
  }

  function AgentOf(was: Container, i: Input): Container {
    WithConfigMount(BareAgentOf(was, i), i)
  }

  function ConfigOf(was: Container, i: Input): Container {
    was.(image := i.copyImage, command := i.writeConfig,
         env := [("AGENT_CONFIG_CONTENT", if i.configFile.Some? then i.configFile.value else "")]
                + (if i.ego != "" then [("AGENT_EGO_CONTENT", i.ego)] else [])
                + (if Instructions(i) != "" then [("AGENT_INSTRUCTIONS_CONTENT", Instructions(i))] else [])
                + (if AdapterBuilt(i) && i.controlRootFile.Some? then [("AGENT_CONTROL_ROOT_CONTENT", i.controlRootFile.value)] else []),
         mounts := [Mount(CONFIG, i.configPath, false, "")]
                   + (if AdapterBuilt(i) then [Mount(CONTROL_ROOT, CONTROL_ROOT_PATH, false, "")] else []))
  }

  function OutboxOf(was: Container, i: Input): Container {
    was.(image := i.copyImage, command := i.makeOutbox,
         mounts := [Mount(STATE, OUTBOX_STATE_PATH, false, "")])
  }

  function AdapterOf(was: Container, i: Input): Container {
    was.(image := i.adapterImage, restartsAlways := true, args := ["adapter"],
         env := [("GARAM_ADAPTER_AGENT", if i.grn.Some? then i.grn.value else ""),
                 ("GARAM_ADAPTER_MACHINE_URL", "https://" + i.garamAddress),
                 ("GARAM_ADAPTER_GATEWAY_URL", "http://" + i.gatewayAddress),
                 ("GARAM_ADAPTER_TOKEN_FILE", CREDENTIALS_PATH + "/" + TOKEN_KEY),
                 ("GARAM_ADAPTER_SERVER_ROOT_FILE", CREDENTIALS_PATH + "/" + SERVER_ROOT_KEY),
                 ("GARAM_ADAPTER_CONTROL_URL", "https://" + i.controlAddress),
                 ("GARAM_ADAPTER_CONTROL_ROOT_FILE", CONTROL_ROOT_PATH + "/" + CONTROL_ROOT_FILE),
                 ("GARAM_ADAPTER_CONTROL_TOKEN_FILE", CREDENTIALS_PATH + "/" + CONTROL_TOKEN_KEY),
                 ("GARAM_ADAPTER_PLACEMENT_TOKEN_FILE", PLACEMENT_PATH + "/" + TOKEN_KEY),
                 ("GARAM_ADAPTER_OUTBOX_DIR", OUTBOX_PATH)],
         mounts := [Mount(CREDENTIALS, CREDENTIALS_PATH, true, ""), Mount(PLACEMENT, PLACEMENT_PATH, true, ""),
                    Mount(CONTROL_ROOT, CONTROL_ROOT_PATH, true, ""), Mount(STATE, OUTBOX_PATH, false, i.outboxDir)])
  }

  function WorkspaceOf(was: Container, i: Input): Container {
    was.(image := i.workspaceImage, env := i.workspaceEnv,
         mounts := [Mount(WORKSPACE, i.statePath, false, "")])
  }

  // ---- One application ----

  function ClaimVolumes(i: Input): seq<Volume> {
    if i.claim.Some? then [Volume(STATE, ClaimNamed(i.claim.value))] else []
  }

  function AdapterVolumes(i: Input): seq<Volume> {
    if AdapterBuilt(i)
    then [Volume(CREDENTIALS, SecretNamed(i.credentialsSecret, [])), Volume(PLACEMENT, SecretNamed(i.placementSecret, []))]
    else []
  }

  function IssuerVolumes(i: Input): seq<Volume> {
    if HasIssuer(i) then [Volume(SERVER_ROOT, SecretNamed(i.credentialsSecret, [SERVER_ROOT_KEY]))] else []
  }

  function ConfigVolumes(i: Input): seq<Volume> {
    (if Declares(i) then [Volume(CONFIG, EmptyDir)] else []) + (if AdapterBuilt(i) then [Volume(CONTROL_ROOT, EmptyDir)] else [])
  }

  function VolumesOf(i: Input): seq<Volume> {
    ClaimVolumes(i) + AdapterVolumes(i) + IssuerVolumes(i) + ConfigVolumes(i)
  }

  function WithConfig(cs: seq<Container>, i: Input): seq<Container> {
    if Declares(i) then With(cs, ConfigOf(Named(cs, CONFIG), i)) else Without(cs, CONFIG)
  }

  function WithOutbox(cs: seq<Container>, i: Input): seq<Container> {
    if AdapterBuilt(i) then With(cs, OutboxOf(Named(cs, OUTBOX), i)) else Without(cs, OUTBOX)
  }

  function WithAdapter(cs: seq<Container>, i: Input): seq<Container> {
    if AdapterBuilt(i) then With(cs, AdapterOf(Named(cs, ADAPTER), i)) else Without(cs, ADAPTER)
  }

  function WithWorkspace(cs: seq<Container>, i: Input): seq<Container> {
    if i.workspaceImage != "" then With(cs, WorkspaceOf(Named(cs, WORKSPACE), i)) else Without(cs, WORKSPACE)
  }

  function ClaimTemplatesOf(i: Input): seq<string> {
    (if i.claim.None? then [STATE] else []) + [WORKSPACE]
  }

  function WithInit(cs: seq<Container>, i: Input): seq<Container> {
    WithAdapter(WithOutbox(WithConfig(cs, i), i), i)
  }

  function WithContainers(cs: seq<Container>, i: Input): seq<Container> {
    WithWorkspace(With(cs, AgentOf(Named(cs, AGENT), i)), i)
  }

  /** What a reconcile writes: nothing where it fails. */
  function Applied(t: Template, i: Input): Template {
    if Fails(i) then t
    else
      Template(true, if i.suspended || i.stopped || i.hold then 0 else 1, VolumesOf(i),
               WithInit(t.initContainers, i), WithContainers(t.containers, i),
               if t.created then t.claimTemplates else ClaimTemplatesOf(i))
  }

  /** The object in memory once an error stopped the rewriting, before the config file: it is not written. */
  function Half(t: Template, i: Input): Template {
    Template(t.created, if i.suspended || i.stopped || i.hold then 0 else 1, ClaimVolumes(i) + AdapterVolumes(i) + IssuerVolumes(i),
             t.initContainers, With(t.containers, BareAgentOf(Named(t.containers, AGENT), i)),
             if t.created then t.claimTemplates else ClaimTemplatesOf(i))
  }

  // ---- The StatefulSet as it is rewritten ----

  lemma ConfigMounted(cs: seq<Container>, i: Input)
    ensures var bare := With(cs, BareAgentOf(Named(cs, AGENT), i));
            && IndexOf(bare, AGENT) < |bare| && Named(bare, AGENT) == BareAgentOf(Named(cs, AGENT), i)
            && With(bare, WithConfigMount(Named(bare, AGENT), i)) == With(cs, AgentOf(Named(cs, AGENT), i))
  {
    var bare := With(cs, BareAgentOf(Named(cs, AGENT), i));
    IndexIs(bare, AGENT, IndexOf(cs, AGENT));
  }

  class AgentStatefulSet {
    var created: bool
    var replicas: nat
    var volumes: seq<Volume>
    var initContainers: seq<Container>
    var containers: seq<Container>
    var claimTemplates: seq<string>

    constructor ()
      ensures Value() == EMPTY
    {
      created, replicas, volumes, initContainers, containers, claimTemplates := false, 0, [], [], [], [];
    }

    ghost function Value(): Template
      reads this
    {
      Template(created, replicas, volumes, initContainers, containers, claimTemplates)
    }

    /** Where the container of the name is, appended where there is none. */
    static method ContainerNamed(cs: seq<Container>, name: string) returns (r: seq<Container>, k: nat)
      ensures r == Ensured(cs, name) && k == IndexOf(cs, name) && k < |r| && r[k] == Named(cs, name)
    {
      k := 0;
      while k < |cs| && cs[k].name != name
        invariant 0 <= k <= |cs| && k <= IndexOf(cs, name)
      {
        k := k + 1;
      }
      r := if k < |cs| then cs else cs + [Empty(name)];
    }

    static method DeleteNamed(cs: seq<Container>, name: string) returns (r: seq<Container>)
      ensures r == Without(cs, name)
    {
      r := [];
      for k := 0 to |cs|
        invariant r == Without(cs[..k], name)
      {
        assert cs[..k + 1][..k] == cs[..k];
        if cs[k].name != name {
          r := r + [cs[k]];
        }
      }
      assert cs[..|cs|] == cs;
    }

    /** The config container and its volumes, and the file mounted into the agent's container. */
    method ApplyConfig(i: Input)
      modifies this`initContainers, this`volumes, this`containers
      ensures initContainers == WithConfig(old(initContainers), i)
      ensures containers == if Declares(i) then With(old(containers), WithConfigMount(Named(old(containers), AGENT), i)) else old(containers)
      ensures volumes == old(volumes) + ConfigVolumes(i)
    {
      if !Declares(i) {
        initContainers := DeleteNamed(initContainers, CONFIG);
        return;
      }
      volumes := volumes + [Volume(CONFIG, EmptyDir)];
      var cs, k := ContainerNamed(initContainers, CONFIG);
      initContainers := cs[k := ConfigOf(cs[k], i)];
      if AdapterBuilt(i) {
        volumes := volumes + [Volume(CONTROL_ROOT, EmptyDir)];
      }
      var agents, a := ContainerNamed(containers, AGENT);
      containers := agents[a := WithConfigMount(agents[a], i)];
    }

    method ApplyOutbox(i: Input)
      modifies this`initContainers
      ensures initContainers == WithOutbox(old(initContainers), i)
    {
      if !AdapterBuilt(i) {
        initContainers := DeleteNamed(initContainers, OUTBOX);
        return;
      }
      var cs, k := ContainerNamed(initContainers, OUTBOX);
      initContainers := cs[k := OutboxOf(cs[k], i)];
    }

    method ApplyAdapter(i: Input)
      modifies this`initContainers
      ensures initContainers == WithAdapter(old(initContainers), i)
    {
      if !AdapterBuilt(i) {
        initContainers := DeleteNamed(initContainers, ADAPTER);
        return;
      }
      var cs, k := ContainerNamed(initContainers, ADAPTER);
      initContainers := cs[k := AdapterOf(cs[k], i)];
    }

    method ApplyWorkspace(i: Input)
      modifies this`containers
      ensures containers == WithWorkspace(old(containers), i)
    {
      if i.workspaceImage == "" {
        containers := DeleteNamed(containers, WORKSPACE);
        return;
      }
      var cs, k := ContainerNamed(containers, WORKSPACE);
      containers := cs[k := WorkspaceOf(cs[k], i)];
    }

    /** The volumes the claim, the adapter and the issuer bring, and the agent's container. */
    method ApplyContainer(i: Input)
      modifies this`volumes, this`containers
      ensures volumes == ClaimVolumes(i) + AdapterVolumes(i) + IssuerVolumes(i)
      ensures containers == With(old(containers), BareAgentOf(Named(old(containers), AGENT), i))
    {
      volumes := [];
      if i.claim.Some? {
        volumes := volumes + [Volume(STATE, ClaimNamed(i.claim.value))];
      }
      if AdapterBuilt(i) {
        volumes := volumes + AdapterVolumes(i);
      }
      var cs, k := ContainerNamed(containers, AGENT);
      containers := cs[k := BareAgentOf(cs[k], i)];
      if HasIssuer(i) {
        volumes := volumes + IssuerVolumes(i);
      }
    }

    /** Writes what the input decides, in order, and leaves the rest. An error stops it halfway. */
    method ApplyAgent(i: Input) returns (ok: bool)
      modifies this
      ensures ok == !Fails(i)
      ensures Value() == if ok then Applied(old(Value()), i).(created := old(created)) else Half(old(Value()), i)
    {
      if !created {
        ApplyCreation(i);
      }
      replicas := if i.suspended || i.stopped || i.hold then 0 else 1;
      ApplyContainer(i);
      if Fails(i) {
        return false;
      }
      ApplyPod(i);
      ConfigMounted(old(containers), i);
      ok := true;
    }

    /** What a StatefulSet refuses a change to. */
    method ApplyCreation(i: Input)
      modifies this`claimTemplates
      ensures claimTemplates == ClaimTemplatesOf(i)
    {
      claimTemplates := [WORKSPACE];
      if i.claim.None? {
        claimTemplates := [STATE] + claimTemplates;
      }
    }

    /** The rest of the Pod, once the agent's container is written. */
    method ApplyPod(i: Input)
      modifies this`volumes, this`initContainers, this`containers
      ensures volumes == old(volumes) + ConfigVolumes(i)
      ensures initContainers == WithInit(old(initContainers), i)
      ensures containers == WithWorkspace(
                if Declares(i) then With(old(containers), WithConfigMount(Named(old(containers), AGENT), i)) else old(containers), i)
    {
      ApplyConfig(i);
      ApplyOutbox(i);
      ApplyAdapter(i);
      // Last, because appending a container can move the ones before it.
      ApplyWorkspace(i);
    }

    /** One reconcile of the stored object: read, rewritten, and written back whole or not at all. */
    method CreateOrUpdate(stored: Template, i: Input) returns (written: Template, ok: bool)
      modifies this
      ensures ok == !Fails(i) && written == Applied(stored, i)
    {
      created, replicas, volumes := stored.created, stored.replicas, stored.volumes;
      initContainers, containers, claimTemplates := stored.initContainers, stored.containers, stored.claimTemplates;
      assert Value() == stored;
      ok := ApplyAgent(i);
      written := if ok then Template(true, replicas, volumes, initContainers, containers, claimTemplates) else stored;
    }
  }

  // ---- Path independence ----

  /** The init containers and containers an input alone decides. */
  function InitContainersOf(i: Input): seq<Container> {
    (if Declares(i) then [ConfigOf(Empty(CONFIG), i)] else [])
    + (if AdapterBuilt(i) then [OutboxOf(Empty(OUTBOX), i), AdapterOf(Empty(ADAPTER), i)] else [])
  }

  function ContainersOf(i: Input): seq<Container> {
    [AgentOf(Empty(AGENT), i)] + (if i.workspaceImage != "" then [WorkspaceOf(Empty(WORKSPACE), i)] else [])
  }

  /** Nothing applied yet, or what one input decides: all a template reached from the empty one can be. */
  ghost predicate Reached(t: Template) {
    || (t.initContainers == [] && t.containers == [])
    || (exists i :: DecidedBy(t, i))
  }

  ghost predicate DecidedBy(t: Template, i: Input) {
    t.initContainers == InitContainersOf(i) && t.containers == ContainersOf(i)
  }

  lemma Names()
    ensures AGENT != WORKSPACE && CONFIG != OUTBOX && CONFIG != ADAPTER && OUTBOX != ADAPTER
  {
    assert |AGENT| != |WORKSPACE| && CONFIG[0] != OUTBOX[0] && |CONFIG| != |ADAPTER| && |OUTBOX| != |ADAPTER|;
  }

  lemma WithoutNone(cs: seq<Container>, name: string)
    requires forall k | 0 <= k < |cs| :: cs[k].name != name
    ensures Without(cs, name) == cs
  {
    if cs != [] {
      WithoutNone(cs[..|cs| - 1], name);
    }
  }

  lemma WithoutLast(cs: seq<Container>, c: Container)
    requires forall k | 0 <= k < |cs| :: cs[k].name != c.name
    ensures Without(cs + [c], c.name) == cs
  {
    assert (cs + [c])[..|cs|] == cs;
    WithoutNone(cs, c.name);
  }

  lemma WithoutMiddle(cs: seq<Container>, c: Container, last: Container)
    requires (forall k | 0 <= k < |cs| :: cs[k].name != c.name) && last.name != c.name
    ensures Without(cs + [c, last], c.name) == cs + [last]
  {
    var all := cs + [c, last];
    assert all[..|all| - 1] == cs + [c] && all[|all| - 1] == last;
    WithoutLast(cs, c);
  }

  lemma IndexIs(cs: seq<Container>, name: string, k: nat)
    requires k <= |cs| && (k < |cs| ==> cs[k].name == name) && forall j | 0 <= j < k :: cs[j].name != name
    ensures IndexOf(cs, name) == k
  {
  }

  /** Where an init container was built before is where it is built again, and each writes all that any
      input writes of it. */
  lemma ConfigDecides(i: Input, was: Input)
    ensures WithConfig(InitContainersOf(was), i)
            == (if Declares(i) then [ConfigOf(Empty(CONFIG), i)] else [])
               + (if AdapterBuilt(was) then [OutboxOf(Empty(OUTBOX), was), AdapterOf(Empty(ADAPTER), was)] else [])
    ensures WithConfig([], i) == if Declares(i) then [ConfigOf(Empty(CONFIG), i)] else []
  {
    Names();
    var cs := InitContainersOf(was);
    var tail := if AdapterBuilt(was) then [OutboxOf(Empty(OUTBOX), was), AdapterOf(Empty(ADAPTER), was)] else [];
    WithoutNone(tail, CONFIG);
    if Declares(was) {
      IndexIs(cs, CONFIG, 0);
      if AdapterBuilt(was) {
        assert cs == [cs[0], cs[1], cs[2]];
        WithoutFirst(cs, CONFIG);
      } else {
        WithoutFirst(cs, CONFIG);
      }
      assert cs[1..] == tail;
    }
  }

  lemma {:induction false} WithoutFirst(cs: seq<Container>, name: string)
    requires cs != [] && cs[0].name == name && forall k | 1 <= k < |cs| :: cs[k].name != name
    ensures Without(cs, name) == cs[1..]
    decreases |cs|
  {
    if |cs| > 1 {
      WithoutFirst(cs[..|cs| - 1], name);
      assert cs[..|cs| - 1][1..] + [cs[|cs| - 1]] == cs[1..];
    } else {
      assert cs[..0] == [];
    }
  }

  lemma AdapterRebuilt(head: seq<Container>, i: Input, was: Input)
    requires forall k | 0 <= k < |head| :: head[k].name == CONFIG
    ensures WithAdapter(WithOutbox(head + [OutboxOf(Empty(OUTBOX), was), AdapterOf(Empty(ADAPTER), was)], i), i)
            == head + (if AdapterBuilt(i) then [OutboxOf(Empty(OUTBOX), i), AdapterOf(Empty(ADAPTER), i)] else [])
  {
    Names();
    var o, a := OutboxOf(Empty(OUTBOX), was), AdapterOf(Empty(ADAPTER), was);
    var cs := head + [o, a];
    IndexIs(cs, OUTBOX, |head|);
    WithoutMiddle(head, o, a);
    WithoutLast(head, a);
    var cs' := head + [OutboxOf(Empty(OUTBOX), i), a];
    IndexIs(cs', ADAPTER, |head| + 1);
    assert cs[|head| := OutboxOf(o, i)] == cs';
    assert cs'[|head| + 1 := AdapterOf(a, i)] == head + [OutboxOf(Empty(OUTBOX), i), AdapterOf(Empty(ADAPTER), i)];
  }

  lemma AdapterBuiltAnew(head: seq<Container>, i: Input)
    requires forall k | 0 <= k < |head| :: head[k].name == CONFIG
    ensures WithAdapter(WithOutbox(head, i), i)
            == head + (if AdapterBuilt(i) then [OutboxOf(Empty(OUTBOX), i), AdapterOf(Empty(ADAPTER), i)] else [])
  {
    Names();
    assert head + [] == head;
    IndexIs(head, OUTBOX, |head|);
    WithoutNone(head, OUTBOX);
    WithoutNone(head, ADAPTER);
    var cs' := head + [OutboxOf(Empty(OUTBOX), i)];
    IndexIs(cs', ADAPTER, |cs'|);
    assert cs' + [AdapterOf(Empty(ADAPTER), i)] == head + [OutboxOf(Empty(OUTBOX), i), AdapterOf(Empty(ADAPTER), i)];
  }

  lemma InitDecides(t: Template, i: Input)
    requires Reached(t)
    ensures WithInit(t.initContainers, i) == InitContainersOf(i)
  {
    var head := if Declares(i) then [ConfigOf(Empty(CONFIG), i)] else [];
    AdapterBuiltAnew(head, i);
    if t.initContainers == [] && t.containers == [] {
      ConfigDecides(i, i);
    } else {
      var was :| DecidedBy(t, was);
      ConfigDecides(i, was);
      assert head + [] == head;
      AdapterRebuilt(head, i, was);
    }
  }

  lemma ContainersDecide(t: Template, i: Input)
    requires Reached(t)
    ensures WithContainers(t.containers, i) == ContainersOf(i)
  {
    Names();
    var agent := [AgentOf(Empty(AGENT), i)];
    if t.initContainers == [] && t.containers == [] {
      WithoutNone(agent, WORKSPACE);
      IndexIs(agent, WORKSPACE, 1);
    } else {
      var was :| DecidedBy(t, was);
      IndexIs(t.containers, AGENT, 0);
      var cs := With(t.containers, AgentOf(Named(t.containers, AGENT), i));
      if was.workspaceImage != "" {
        var w := WorkspaceOf(Empty(WORKSPACE), was);
        assert cs == agent + [w];
        IndexIs(cs, WORKSPACE, 1);
        WithoutLast(agent, w);
      } else {
        assert cs == agent;
        IndexIs(cs, WORKSPACE, 1);
        WithoutNone(agent, WORKSPACE);
      }
    }
  }

  /** Whatever was applied before, the last input decides all but the claim templates, which the first
      did. */
  lemma LastInputDecides(t: Template, i: Input)
    requires Reached(t) && !Fails(i)
    ensures Applied(t, i) == Applied(EMPTY, i).(claimTemplates := if t.created then t.claimTemplates else ClaimTemplatesOf(i))
    ensures DecidedBy(Applied(t, i), i)
  {
    InitDecides(t, i);
    ContainersDecide(t, i);
    InitDecides(EMPTY, i);
    ContainersDecide(EMPTY, i);
  }

  function AppliedAll(inputs: seq<Input>): Template {
    if inputs == [] then EMPTY else Applied(AppliedAll(inputs[..|inputs| - 1]), inputs[|inputs| - 1])
  }

  lemma {:induction false} AllReached(inputs: seq<Input>)
    ensures Reached(AppliedAll(inputs))
    ensures AppliedAll(inputs).created <==> exists k | 0 <= k < |inputs| :: !Fails(inputs[k])
  {
    if inputs != [] {
      var before, i := inputs[..|inputs| - 1], inputs[|inputs| - 1];
      AllReached(before);
      assert inputs == before + [i];
      if !Fails(i) {
        LastInputDecides(AppliedAll(before), i);
      }
    }
  }

  /** After any sequence of inputs, failed ones among them, the template is one application of the last
      that did not fail to an empty one, its claim templates aside. */
  lemma PathIndependent(inputs: seq<Input>, i: Input)
    requires !Fails(i)
    ensures AppliedAll(inputs + [i]).(claimTemplates := []) == Applied(EMPTY, i).(claimTemplates := [])
  {
    assert (inputs + [i])[..|inputs|] == inputs;
    AllReached(inputs);
    LastInputDecides(AppliedAll(inputs), i);
  }

  /** Applying an input again changes nothing. */
  lemma Idempotent(inputs: seq<Input>, i: Input)
    ensures Applied(AppliedAll(inputs + [i]), i) == AppliedAll(inputs + [i])
  {
    assert (inputs + [i])[..|inputs|] == inputs;
    AllReached(inputs);
    AppliedTwice(AppliedAll(inputs), i);
  }

  lemma AppliedTwice(t: Template, i: Input)
    requires Reached(t)
    ensures Applied(Applied(t, i), i) == Applied(t, i)
  {
    if !Fails(i) {
      LastInputDecides(t, i);
      var once := Applied(t, i);
      assert Reached(once);
      LastInputDecides(once, i);
    }
  }

  /** The init containers are always some of config, outbox and adapter, in that order, the last two
      together and never without the first. */
  lemma InitContainersInOrder(inputs: seq<Input>)
    ensures var cs := AppliedAll(inputs).initContainers;
            || cs == []
            || (|cs| == 1 && cs[0].name == CONFIG)
            || (|cs| == 3 && cs[0].name == CONFIG && cs[1].name == OUTBOX && cs[2].name == ADAPTER && cs[2].restartsAlways)
  {
    AllReached(inputs);
    var t := AppliedAll(inputs);
    if !(t.initContainers == [] && t.containers == []) {
      var i :| DecidedBy(t, i);
    }
  }

  // ---- Mounts ----

  datatype StatePlan = StatePlan(claim: Option<string>, hold: bool)

  /** A claim template cannot be removed: a StatefulSet whose own makes the state claim is replaced once
      the memory is on another, and one that lost it mounts even its own claim by name. None is a
      StatefulSet being replaced. */
  function ReplaceStateTemplate(t: Template, plan: StatePlan, own: string): Option<StatePlan> {
    if !t.created then Some(plan)
    else
      var templated := STATE in t.claimTemplates;
      var claim := if plan.claim.None? && !templated then Some(own) else plan.claim;
      if claim.None? || !templated then Some(plan.(claim := claim)) else None
  }

  function CountNamed(volumes: seq<Volume>, name: string): nat {
    if volumes == [] then 0
    else CountNamed(volumes[..|volumes| - 1], name) + (if volumes[|volumes| - 1].name == name then 1 else 0)
  }

  /** What a mount of the name resolves to: the Pod's volumes, and the claims made from templates. */
  function Sources(t: Template, name: string): nat {
    CountNamed(t.volumes, name) + (if name in t.claimTemplates then 1 else 0)
  }

  ghost predicate MountsResolve(t: Template) {
    && (forall k, m | 0 <= k < |t.initContainers| && m in t.initContainers[k].mounts :: Sources(t, m.volume) == 1)
    && (forall k, m | 0 <= k < |t.containers| && m in t.containers[k].mounts :: Sources(t, m.volume) == 1)
  }

  lemma {:induction false} CountConcat(a: seq<Volume>, b: seq<Volume>, name: string)
    ensures CountNamed(a + b, name) == CountNamed(a, name) + CountNamed(b, name)
    decreases |b|
  {
    if b == [] {
      assert a + b == a;
    } else {
      var c := b[..|b| - 1];
      assert (a + b)[..|a + b| - 1] == a + c;
      CountConcat(a, c, name);
    }
  }

  lemma CountOne(v: Volume, name: string)
    ensures CountNamed([v], name) == if v.name == name then 1 else 0
  {
    assert [v][..0] == [];
  }

  lemma VolumeNames()
    ensures STATE != CREDENTIALS && STATE != PLACEMENT && STATE != SERVER_ROOT && STATE != CONFIG && STATE != CONTROL_ROOT && STATE != WORKSPACE
    ensures CREDENTIALS != PLACEMENT && CREDENTIALS != SERVER_ROOT && CREDENTIALS != CONFIG && CREDENTIALS != CONTROL_ROOT && CREDENTIALS != WORKSPACE
    ensures PLACEMENT != SERVER_ROOT && PLACEMENT != CONFIG && PLACEMENT != CONTROL_ROOT && PLACEMENT != WORKSPACE
    ensures SERVER_ROOT != CONFIG && SERVER_ROOT != CONTROL_ROOT && SERVER_ROOT != WORKSPACE
    ensures CONFIG != CONTROL_ROOT && CONFIG != WORKSPACE && CONTROL_ROOT != WORKSPACE
  {
    assert |STATE| == 5 && |CREDENTIALS| == 11 && |PLACEMENT| == 9 && |SERVER_ROOT| == 11 && |CONFIG| == 6;
    assert |CONTROL_ROOT| == 12 && |WORKSPACE| == 9;
    assert CREDENTIALS[0] != SERVER_ROOT[0] && PLACEMENT[0] != WORKSPACE[0];
  }

  /** How many of each volume an input brings. */
  lemma VolumeCounts(i: Input)
    ensures CountNamed(VolumesOf(i), STATE) == if i.claim.Some? then 1 else 0
    ensures AdapterBuilt(i) ==> CountNamed(VolumesOf(i), CREDENTIALS) == CountNamed(VolumesOf(i), PLACEMENT) == 1
    ensures AdapterBuilt(i) ==> CountNamed(VolumesOf(i), CONTROL_ROOT) == 1
    ensures HasIssuer(i) ==> CountNamed(VolumesOf(i), SERVER_ROOT) == 1
    ensures Declares(i) ==> CountNamed(VolumesOf(i), CONFIG) == 1
    ensures CountNamed(VolumesOf(i), WORKSPACE) == 0
  {
    forall name | name in {STATE, CREDENTIALS, PLACEMENT, CONTROL_ROOT, SERVER_ROOT, CONFIG, WORKSPACE}
      ensures CountNamed(VolumesOf(i), name)
              == (if i.claim.Some? && name == STATE then 1 else 0)
                 + (if AdapterBuilt(i) && name in {CREDENTIALS, PLACEMENT} then 1 else 0)
                 + (if HasIssuer(i) && name == SERVER_ROOT then 1 else 0)
                 + (if Declares(i) && name == CONFIG then 1 else 0)
                 + (if AdapterBuilt(i) && name == CONTROL_ROOT then 1 else 0)
    {
      CountEach(i, name);
    }
    VolumeNames();
  }

  lemma CountEach(i: Input, name: string)
    ensures CountNamed(VolumesOf(i), name)
            == (if i.claim.Some? && name == STATE then 1 else 0)
               + (if AdapterBuilt(i) && name in {CREDENTIALS, PLACEMENT} then 1 else 0)
               + (if HasIssuer(i) && name == SERVER_ROOT then 1 else 0)
               + (if Declares(i) && name == CONFIG then 1 else 0)
               + (if AdapterBuilt(i) && name == CONTROL_ROOT then 1 else 0)
  {
    VolumeNames();
    var claim, adapter, issuer := ClaimVolumes(i), AdapterVolumes(i), IssuerVolumes(i);
    CountConcat(claim + adapter + issuer, ConfigVolumes(i), name);
    CountConcat(claim + adapter, issuer, name);
    CountConcat(claim, adapter, name);
    CountParts(i, name);
  }

  lemma CountParts(i: Input, name: string)
    ensures CountNamed(ClaimVolumes(i), name) == if i.claim.Some? && name == STATE then 1 else 0
    ensures CountNamed(IssuerVolumes(i), name) == if HasIssuer(i) && name == SERVER_ROOT then 1 else 0
    ensures CountNamed(AdapterVolumes(i), name) == if AdapterBuilt(i) && name in {CREDENTIALS, PLACEMENT} then 1 else 0
    ensures CountNamed(ConfigVolumes(i), name)
            == (if Declares(i) && name == CONFIG then 1 else 0) + (if AdapterBuilt(i) && name == CONTROL_ROOT then 1 else 0)
  {
    VolumeNames();
    var credentials, placement := Volume(CREDENTIALS, SecretNamed(i.credentialsSecret, [])), Volume(PLACEMENT, SecretNamed(i.placementSecret, []));
    CountOne(Volume(STATE, ClaimNamed(if i.claim.Some? then i.claim.value else "")), name);
    CountOne(Volume(SERVER_ROOT, SecretNamed(i.credentialsSecret, [SERVER_ROOT_KEY])), name);
    CountOne(credentials, name);
    CountOne(placement, name);
    CountConcat([credentials], [placement], name);
    assert [credentials] + [placement] == [credentials, placement];
    CountOne(Volume(CONFIG, EmptyDir), name);
    CountOne(Volume(CONTROL_ROOT, EmptyDir), name);
    CountConcat(if Declares(i) then [Volume(CONFIG, EmptyDir)] else [],
                if AdapterBuilt(i) then [Volume(CONTROL_ROOT, EmptyDir)] else [], name);
  }

  /** The StatefulSet claims its workspace, and nothing by template but that and the state. */
  ghost predicate ClaimsOk(t: Template) {
    t.created ==> WORKSPACE in t.claimTemplates && forall name | name in t.claimTemplates :: name in {STATE, WORKSPACE}
  }

  lemma {:induction false} AllClaimsOk(inputs: seq<Input>)
    ensures ClaimsOk(AppliedAll(inputs))
  {
    if inputs != [] {
      AllClaimsOk(inputs[..|inputs| - 1]);
    }
  }

  /** After any inputs, and for any plan the StatefulSet is not replaced for: every mount of every
      container resolves to exactly one volume or claim template. */
  lemma MountsResolveOnce(inputs: seq<Input>, i: Input, plan: StatePlan, own: string)
    requires !Fails(i)
    requires var replaced := ReplaceStateTemplate(AppliedAll(inputs), plan, own);
             replaced.Some? && i.claim == replaced.value.claim
    ensures MountsResolve(AppliedAll(inputs + [i]))
  {
    assert (inputs + [i])[..|inputs|] == inputs;
    AllReached(inputs);
    AllClaimsOk(inputs);
    MountsAfter(AppliedAll(inputs), i, plan, own);
  }

  lemma MountsAfter(before: Template, i: Input, plan: StatePlan, own: string)
    requires Reached(before) && ClaimsOk(before) && !Fails(i)
    requires ReplaceStateTemplate(before, plan, own).Some? && i.claim == ReplaceStateTemplate(before, plan, own).value.claim
    ensures MountsResolve(Applied(before, i))
  {
    LastInputDecides(before, i);
    ClaimsAfter(before, i, plan, own);
    SourcesOnce(Applied(before, i), i);
    DecidedMounts(Applied(before, i), i);
  }

  /** Where the StatefulSet is not replaced, its template makes the state claim exactly where none is
      mounted by name. */
  lemma ClaimsAfter(before: Template, i: Input, plan: StatePlan, own: string)
    requires ClaimsOk(before) && ReplaceStateTemplate(before, plan, own).Some?
    requires i.claim == ReplaceStateTemplate(before, plan, own).value.claim
    ensures var templates := if before.created then before.claimTemplates else ClaimTemplatesOf(i);
            && WORKSPACE in templates && (forall name | name in templates :: name in {STATE, WORKSPACE})
            && (STATE in templates <==> i.claim.None?)
  {
    VolumeNames();
  }

  lemma DecidedMounts(t: Template, i: Input)
    requires DecidedBy(t, i) && forall name | name in Mountable(i) :: Sources(t, name) == 1
    ensures MountsResolve(t)
  {
    ContainerMounts(i);
  }

  lemma SourcesOnce(t: Template, i: Input)
    requires t.volumes == VolumesOf(i) && WORKSPACE in t.claimTemplates
    requires forall name | name in t.claimTemplates :: name in {STATE, WORKSPACE}
    requires STATE in t.claimTemplates <==> i.claim.None?
    ensures forall name | name in Mountable(i) :: Sources(t, name) == 1
  {
    VolumeCounts(i);
    VolumeNames();
  }

  /** The volumes the containers of an input may mount. */
  function Mountable(i: Input): set<string> {
    {STATE, WORKSPACE}
    + (if AdapterBuilt(i) then {CREDENTIALS, PLACEMENT, CONTROL_ROOT} else {})
    + (if HasIssuer(i) then {SERVER_ROOT} else {})
    + (if Declares(i) then {CONFIG} else {})
  }

  lemma ContainerMounts(i: Input)
    ensures forall k, m | 0 <= k < |InitContainersOf(i)| && m in InitContainersOf(i)[k].mounts :: m.volume in Mountable(i)
    ensures forall k, m | 0 <= k < |ContainersOf(i)| && m in ContainersOf(i)[k].mounts :: m.volume in Mountable(i)
  {
  }
}
