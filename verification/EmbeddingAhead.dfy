/**
  When a configure request can change an endpoint it must not: exactly when it is ahead of its agent at
  its check, and what the agent then names does not already bind it. Other requests, each served in one
  step, bring the agent up to it before it is stored.
 */
module EmbeddingAhead {
  import opened Options
  import opened Domain
  import opened Store
  import opened StoreFrames
  import opened StoreSafety
  import opened EmbeddingSafety

  // ---- What others may do before a request is stored ----

  /** Another configure request served in one step, or any other operation. The configuration of either's
      revision has passed its own check. */
  ghost predicate Served(refs: string -> bool, s: Store, t: Store, key: RequestKey) {
    || (exists c: ConfigureInput :: ServedBy(refs, s, t, key, c))
    || (exists op :: OtherServed(refs, s, op) && t == Apply(s, op))
  }

  ghost predicate ServedBy(refs: string -> bool, s: Store, t: Store, key: RequestKey, c: ConfigureInput) {
    && c.request != key && CheckConfiguration(refs, c.config).Ok?
    && Published(s, c.request.organization, c.profile) && CheckEmbedding(s, c).Ok? && t == Stored(s, c)
  }

  ghost predicate OtherServed(refs: string -> bool, s: Store, op: Op) {
    && Permitted(s, op) && !op.OpConfigure?
    && (op.OpRegisterCreation? ==> CheckConfiguration(refs, op.definition.config).Ok?)
  }

  ghost predicate ServedAt(refs: string -> bool, path: seq<Store>, i: nat, key: RequestKey)
    requires i < |path| - 1
  {
    Served(refs, path[i], path[i + 1], key)
  }

  ghost predicate ServedPath(refs: string -> bool, path: seq<Store>, s: Store, key: RequestKey) {
    path != [] && path[0] == s && forall i | 0 <= i < |path| - 1 :: ServedAt(refs, path, i, key)
  }

  /** A store the request may be stored to. */
  ghost predicate MayStore(refs: string -> bool, s: Store, c: ConfigureInput) {
    && StoreOk(s) && EmbeddingsKept(s) && AllChecked(refs, s) && c.request !in s.requests
    && Published(s, c.request.organization, c.profile) && CheckConfiguration(refs, c.config).Ok?
  }

  /** Every revision stored has a configuration that passed its check. */
  ghost predicate AllChecked(refs: string -> bool, s: Store) {
    forall agent, i | agent in s.definitions && 0 <= i < |s.definitions[agent]| ::
      CheckConfiguration(refs, s.definitions[agent][i].config).Ok?
  }

  lemma StoredChecked(refs: string -> bool, s: Store, c: ConfigureInput)
    requires AllChecked(refs, s) && CheckConfiguration(refs, c.config).Ok?
    ensures AllChecked(refs, Stored(s, c))
  {
    var t := Stored(s, c);
    forall agent, i | agent in t.definitions && 0 <= i < |t.definitions[agent]|
      ensures CheckConfiguration(refs, t.definitions[agent][i].config).Ok?
    {
      StoredGrows(s, c, agent);
      assert i < |At(s.definitions, agent)| ==> t.definitions[agent][i] == s.definitions[agent][i];
    }
  }

  lemma OtherChecked(refs: string -> bool, s: Store, op: Op)
    requires AllChecked(refs, s) && OtherServed(refs, s, op)
    ensures AllChecked(refs, Apply(s, op))
  {
    if op.OpRegisterCreation? {
      RegisteredChecked(refs, s, op.key, op.definition);
    } else {
      SameDefinitions(s, op);
    }
  }

  lemma RegisteredChecked(refs: string -> bool, s: Store, key: RequestKey, d: Definition)
    requires AllChecked(refs, s) && d.assignment.Some? && CheckConfiguration(refs, d.config).Ok?
    ensures AllChecked(refs, RegisterCreation(s, key, d).0)
  {
    var t := RegisterCreation(s, key, d).0;
    assert t.definitions == s.definitions || t.definitions == s.definitions[d.agent := At(s.definitions, d.agent) + [d]];
  }

  /** Behind a quantifier, so that a proof unfolds it only where it opens it. */
  ghost predicate Awaits(refs: string -> bool, s: Store, c: ConfigureInput) {
    forall shown: bool :: AwaitsWhen(refs, shown, s, c)
  }

  ghost predicate AwaitsWhen(refs: string -> bool, shown: bool, s: Store, c: ConfigureInput) {
    shown ==> MayStore(refs, s, c)
  }

  lemma OpenAwaits(refs: string -> bool, s: Store, c: ConfigureInput)
    requires Awaits(refs, s, c)
    ensures MayStore(refs, s, c)
  {
    assert AwaitsWhen(refs, true, s, c);
  }

  lemma CloseAwaits(refs: string -> bool, s: Store, c: ConfigureInput)
    requires MayStore(refs, s, c)
    ensures Awaits(refs, s, c)
  {
  }

  lemma SameRequests(s: Store, op: Op)
    requires Permitted(s, op) && !op.OpConfigure?
    ensures Apply(s, op).requests == s.requests
  {
    ApplyFrame(s, op);
    FrameSays(op, s, Apply(s, op));
  }

  lemma ServedStep(refs: string -> bool, s: Store, t: Store, c: ConfigureInput)
    requires Awaits(refs, s, c) && Served(refs, s, t, c.request)
    ensures Awaits(refs, t, c) && At(s.definitions, c.agent) <= At(t.definitions, c.agent)
  {
    if other :| ServedBy(refs, s, t, c.request, other) {
      RequestStep(refs, s, other, c);
    } else {
      var op :| OtherServed(refs, s, op) && t == Apply(s, op);
      OtherStep(refs, s, op, c);
    }
  }

  lemma RequestStep(refs: string -> bool, s: Store, other: ConfigureInput, c: ConfigureInput)
    requires Awaits(refs, s, c) && ServedBy(refs, s, Stored(s, other), c.request, other)
    ensures Awaits(refs, Stored(s, other), c) && At(s.definitions, c.agent) <= At(Stored(s, other).definitions, c.agent)
  {
    OpenAwaits(refs, s, c);
    ApplyKeeps(s, OpConfigure(RequestOf(other), DefinitionOf(other)));
    StoredKeeps(s, other);
    StoredGrows(s, other, c.agent);
    StoredKey(s, other, c.request);
    StoredChecked(refs, s, other);
    CloseAwaits(refs, Stored(s, other), c);
  }

  lemma OtherStep(refs: string -> bool, s: Store, op: Op, c: ConfigureInput)
    requires Awaits(refs, s, c) && OtherServed(refs, s, op)
    ensures Awaits(refs, Apply(s, op), c) && At(s.definitions, c.agent) <= At(Apply(s, op).definitions, c.agent)
  {
    OpenAwaits(refs, s, c);
    ApplyKeeps(s, op);
    OthersKeep(s, op, c.agent);
    SameRequests(s, op);
    OtherChecked(refs, s, op);
    PublishedLasts(s, op, c.request.organization, c.profile);
    CloseAwaits(refs, Apply(s, op), c);
  }

  lemma StoredKey(s: Store, c: ConfigureInput, key: RequestKey)
    requires key != c.request && key !in s.requests
    ensures key !in Stored(s, c).requests && Stored(s, c).profiles == s.profiles
  {
    ConfigureParts(s, RequestOf(c), DefinitionOf(c));
  }

  lemma {:induction false} ServedAlong(refs: string -> bool, path: seq<Store>, s: Store, c: ConfigureInput, i: nat)
    requires Awaits(refs, s, c) && ServedPath(refs, path, s, c.request) && i < |path|
    ensures Awaits(refs, path[i], c) && At(s.definitions, c.agent) <= At(path[i].definitions, c.agent)
  {
    if i > 0 {
      ServedAlong(refs, path, s, c, i - 1);
      assert ServedAt(refs, path, i - 1, c.request);
      ServedStep(refs, path[i - 1], path[i], c);
    }
  }

  // ---- The condition ----

  /** The request expects a revision the agent does not have yet, and nothing the agent has decides the
      check it will not be given: it has no revision, or it is in the request's organization and its
      latest revision does not name the request's own endpoint. */
  predicate Ahead(s: Store, c: ConfigureInput) {
    var revisions := At(s.definitions, c.agent);
    && c.expectedRevision > |revisions|
    && (revisions != [] ==>
          && revisions[0].organization == c.request.organization
          && var was := Last(revisions).config.model.embedding;
             !(was.Some? && SameEndpoint(c.config.model.embedding, was.value)))
  }

  lemma NotAheadIsSafe(refs: string -> bool, s: Store, c: ConfigureInput, t: Store)
    requires Awaits(refs, s, c) && CheckEmbedding(s, c).Ok? && !Ahead(s, c)
    requires Awaits(refs, t, c) && At(s.definitions, c.agent) <= At(t.definitions, c.agent)
    ensures EmbeddingsKept(Stored(t, c))
  {
    OpenAwaits(refs, s, c);
    OpenAwaits(refs, t, c);
    var was, now := At(s.definitions, c.agent), At(t.definitions, c.agent);
    if c.expectedRevision == |now| && now != [] {
      if |was| == |now| {
        assert was == now;
      } else {
        StillPasses(t, c, now, |was| - 1);
      }
    }
    StoredKeeps(t, c);
  }

  /** The check lets through what it is bound to by an earlier revision: another organization's agent,
      or an endpoint named before, which the latest revision names still. */
  lemma StillPasses(t: Store, c: ConfigureInput, now: seq<Definition>, i: int)
    requires StoreOk(t) && EmbeddingsKept(t) && now == At(t.definitions, c.agent) && 0 <= i < |now|
    requires now[0].organization != c.request.organization
             || (EmbeddingAt(now, i).Some? && SameEndpoint(c.config.model.embedding, EmbeddingAt(now, i).value))
    ensures CheckEmbedding(t, c).Ok?
  {
    assert NumberedOk(t.profiles, c.agent, now);
    assert EndpointKept(now);
    assert EmbeddingAt(now, i).Some? ==> SameEndpoint(EmbeddingAt(now, |now| - 1), EmbeddingAt(now, i).value);
  }

  // ---- Bringing the agent up to the request ----

  lemma {:induction false} LongerThanAll(keys: set<RequestKey>) returns (n: nat)
    ensures forall key | key in keys :: |key.requestID| < n
    decreases |keys|
  {
    n := 0;
    if keys != {} {
      var key :| key in keys;
      n := LongerThanAll(keys - {key});
      n := if |key.requestID| < n then n else |key.requestID| + 1;
    }
  }

  lemma FreshKey(s: Store, c: ConfigureInput) returns (key: RequestKey)
    ensures key !in s.requests && key !in s.creations && key != c.request && key.organization == c.request.organization
  {
    var n := LongerThanAll(s.requests.Keys + s.creations.Keys + {c.request});
    key := RequestKey(c.request.organization, seq(n, i => 'r'));
  }

  /** An agent in the request's organization whose latest revision names an endpoint other than the
      request's. */
  ghost predicate Opposes(s: Store, c: ConfigureInput) {
    var revisions := At(s.definitions, c.agent);
    && revisions != [] && revisions[0].organization == c.request.organization
    && Last(revisions).config.model.embedding.Some?
    && !SameEndpoint(c.config.model.embedding, Last(revisions).config.model.embedding.value)
  }

  /** The request's own configuration with another endpoint, and a model to name it where there is none. */
  function Opposing(c: ConfigureInput, ref: string): Configuration {
    var e := c.config.model.embedding;
    var other := Embedding(if e.Some? then e.value.baseURL + "x" else "x", "x", "");
    c.config.(model := if c.config.model == NO_MODEL then Model(MOCK, "", "", ref, Some(other))
                       else c.config.model.(embedding := Some(other)))
  }

  lemma OpposingPasses(refs: string -> bool, c: ConfigureInput, ref: string)
    requires refs(ref) && CheckConfiguration(refs, c.config).Ok?
    ensures CheckConfiguration(refs, Opposing(c, ref)).Ok? && Opposing(c, ref).model.embedding.Some?
    ensures !SameEndpoint(c.config.model.embedding, Opposing(c, ref).model.embedding.value)
  {
  }

  /** One more revision, by a request whose check it passes. */
  lemma Grow(refs: string -> bool, s: Store, c: ConfigureInput, config: Configuration) returns (t: Store)
    requires Awaits(refs, s, c) && At(s.definitions, c.agent) != [] && s.definitions[c.agent][0].organization == c.request.organization
    requires var was := Last(s.definitions[c.agent]).config.model.embedding;
             was.Some? ==> SameEndpoint(config.model.embedding, was.value)
    requires CheckConfiguration(refs, config).Ok?
    ensures Served(refs, s, t, c.request) && Awaits(refs, t, c)
    ensures Count(t, c.agent) == Count(s, c.agent) + 1
    ensures t.definitions[c.agent][0].organization == c.request.organization && Last(t.definitions[c.agent]).config == config
  {
    OpenAwaits(refs, s, c);
    var key := FreshKey(s, c);
    var other := ConfigureInput(key, c.binding, c.agent, Count(s, c.agent), c.profile, config);
    assert NumberedOk(s.profiles, c.agent, s.definitions[c.agent]);
    t := Stored(s, other);
    assert ServedBy(refs, s, t, c.request, other);
    ServedStep(refs, s, t, c);
    assert At(t.definitions, c.agent) == s.definitions[c.agent] + [DefinitionOf(other)];
  }

  lemma {:induction false} GrowTo(refs: string -> bool, s: Store, c: ConfigureInput) returns (path: seq<Store>)
    requires Awaits(refs, s, c) && Opposes(s, c) && c.expectedRevision >= Count(s, c.agent)
    ensures ServedPath(refs, path, s, c.request)
    ensures Awaits(refs, Last(path), c) && Opposes(Last(path), c) && Count(Last(path), c.agent) == c.expectedRevision
    decreases c.expectedRevision - Count(s, c.agent)
  {
    path := [s];
    if c.expectedRevision > Count(s, c.agent) {
      OpenAwaits(refs, s, c);
      var t := Grow(refs, s, c, Last(s.definitions[c.agent]).config);
      var rest := GrowTo(refs, t, c);
      path := Prepend(refs, s, rest, c.request);
    }
  }

  lemma Prepend(refs: string -> bool, s: Store, rest: seq<Store>, key: RequestKey) returns (path: seq<Store>)
    requires rest != [] && Served(refs, s, rest[0], key) && ServedPath(refs, rest, rest[0], key)
    ensures path == [s] + rest && ServedPath(refs, path, s, key)
  {
    path := [s] + rest;
    assert path[0] == s && path[1] == rest[0] && ServedAt(refs, path, 0, key);
    forall i | 1 <= i < |path| - 1
      ensures ServedAt(refs, path, i, key)
    {
      assert ServedAt(refs, rest, i - 1, key) && path[i] == rest[i - 1] && path[i + 1] == rest[i];
    }
  }

  /** A first revision that opposes the request, of a creation begun and registered. */
  lemma Create(refs: string -> bool, ref: string, s: Store, c: ConfigureInput) returns (path: seq<Store>)
    requires refs(ref) && Awaits(refs, s, c) && At(s.definitions, c.agent) == []
    ensures ServedPath(refs, path, s, c.request)
    ensures Awaits(refs, Last(path), c) && Opposes(Last(path), c) && Count(Last(path), c.agent) == 1
  {
    var key := FreshKey(s, c);
    var begun := Begun(refs, s, key, c);
    var registered := FirstRevision(refs, ref, begun, key, c);
    OneStep(refs, registered, c.request);
    var rest := Prepend(refs, begun, [registered], c.request);
    path := Prepend(refs, s, rest, c.request);
  }

  lemma OneStep(refs: string -> bool, s: Store, key: RequestKey)
    ensures ServedPath(refs, [s], s, key)
  {
  }

  lemma Begun(refs: string -> bool, s: Store, key: RequestKey, c: ConfigureInput) returns (t: Store)
    requires Awaits(refs, s, c) && key !in s.creations
    ensures Served(refs, s, t, c.request) && Awaits(refs, t, c) && t.definitions == s.definitions
    ensures key in t.creations && t.creations[key].outcome == Pending
  {
    var begin := OpBeginCreation(Creation(key, c.binding, "", TemplateRef("", 1), c.profile, Pending));
    t := Apply(s, begin);
    OtherStep(refs, s, begin, c);
  }

  lemma FirstRevision(refs: string -> bool, ref: string, s: Store, key: RequestKey, c: ConfigureInput) returns (t: Store)
    requires refs(ref) && Awaits(refs, s, c) && key in s.creations && s.creations[key].outcome == Pending && At(s.definitions, c.agent) == []
    ensures Served(refs, s, t, c.request) && Awaits(refs, t, c) && Opposes(t, c) && Count(t, c.agent) == 1
  {
    OpenAwaits(refs, s, c);
    OpposingPasses(refs, c, ref);
    var d := Definition(c.agent, c.request.organization, 1, c.profile, Opposing(c, ref), Some(c.binding.assignment));
    var register := OpRegisterCreation(key, d);
    t := Apply(s, register);
    OtherStep(refs, s, register, c);
    assert At(t.definitions, c.agent) == [d];
  }

  lemma Join(refs: string -> bool, path: seq<Store>, rest: seq<Store>, s: Store, key: RequestKey)
    requires ServedPath(refs, path, s, key) && rest != [] && Last(path) == rest[0] && ServedPath(refs, rest, rest[0], key)
    ensures ServedPath(refs, path + rest[1..], s, key) && Last(path + rest[1..]) == Last(rest)
  {
    var all := path + rest[1..];
    forall i | 0 <= i < |all| - 1
      ensures ServedAt(refs, all, i, key)
    {
      assert if i < |path| - 1 then ServedAt(refs, path, i, key) else ServedAt(refs, rest, i - |path| + 1, key);
    }
  }

  /** From where it is ahead, the agent can be brought to oppose it at the revision it expects. */
  lemma AheadReaches(refs: string -> bool, ref: string, s: Store, c: ConfigureInput) returns (path: seq<Store>)
    requires refs(ref) && Awaits(refs, s, c) && Ahead(s, c)
    ensures ServedPath(refs, path, s, c.request)
    ensures Awaits(refs, Last(path), c) && Opposes(Last(path), c) && Count(Last(path), c.agent) == c.expectedRevision
  {
    path := [s];
    if At(s.definitions, c.agent) == [] {
      path := Create(refs, ref, s, c);
    } else if !Opposes(s, c) {
      OpenAwaits(refs, s, c);
      OpposingPasses(refs, c, ref);
      var t := Grow(refs, s, c, Opposing(c, ref));
      path := Prepend(refs, s, [t], c.request);
    }
    var rest := GrowTo(refs, Last(path), c);
    Join(refs, path, rest, s, c.request);
    path := path + rest[1..];
  }

  lemma OpposedBreaks(refs: string -> bool, t: Store, c: ConfigureInput)
    requires Awaits(refs, t, c) && Opposes(t, c) && Count(t, c.agent) == c.expectedRevision
    ensures !EmbeddingsKept(Stored(t, c))
  {
    OpenAwaits(refs, t, c);
    var revisions := t.definitions[c.agent];
    var next := At(Stored(t, c).definitions, c.agent);
    assert next == revisions + [DefinitionOf(c)];
    assert EmbeddingAt(next, |revisions| - 1) == Last(revisions).config.model.embedding;
    assert EmbeddingAt(next, |revisions|) == c.config.model.embedding;
    assert !EndpointKept(next);
  }

  /** A request that passed its checks can break an agent's endpoint when it is stored, by what other
      requests did meanwhile, each served in one step and past its own checks, exactly when it was ahead at
      its check. There is some string that refers to a secret. */
  lemma BreaksExactlyWhenAhead(refs: string -> bool, ref: string, s: Store, c: ConfigureInput)
    requires refs(ref) && MayStore(refs, s, c) && CheckEmbedding(s, c).Ok?
    ensures Ahead(s, c) <==> exists path :: ServedPath(refs, path, s, c.request) && !EmbeddingsKept(Stored(Last(path), c))
  {
    CloseAwaits(refs, s, c);
    if Ahead(s, c) {
      var path := AheadReaches(refs, ref, s, c);
      OpposedBreaks(refs, Last(path), c);
    } else {
      forall path | ServedPath(refs, path, s, c.request)
        ensures EmbeddingsKept(Stored(Last(path), c))
      {
        ServedAlong(refs, path, s, c, |path| - 1);
        NotAheadIsSafe(refs, s, c, Last(path));
      }
    }
  }

  // ---- A run ----

  /** A request naming no model, for an agent not yet made, that expects its first revision. */
  function Early(): ConfigureInput {
    ConfigureInput(RequestKey("o", "r"), Binding("", "", "", "", "", Assignment("", "")), "g", 1, ProfileRef("p", 1),
                   Configuration(NO_MODEL, "", map[]))
  }

  function ProfileOnly(): Store {
    PublishProfile(EMPTY, "o", "p", Settings("", "", None, None)).0
  }

  lemma ProfileIsReady(refs: string -> bool)
    ensures Served(refs, EMPTY, ProfileOnly(), Early().request) && Awaits(refs, ProfileOnly(), Early())
    ensures CheckConfiguration(refs, Early().config).Ok? && CheckEmbedding(ProfileOnly(), Early()).Ok?
    ensures Published(ProfileOnly(), "o", Early().profile) && At(ProfileOnly().definitions, "g") == []
  {
    var publish := OpPublish("o", "p", Settings("", "", None, None));
    assert Apply(EMPTY, publish) == ProfileOnly() && OtherServed(refs, EMPTY, publish);
    EmptyOk();
    ApplyKeeps(EMPTY, publish);
    CloseAwaits(refs, ProfileOnly(), Early());
  }

  lemma CreationBreaks(refs: string -> bool, ref: string, s: Store, t: Store, c: ConfigureInput) returns (path: seq<Store>)
    requires refs(ref) && Served(refs, s, t, c.request) && Awaits(refs, t, c)
    requires At(t.definitions, c.agent) == [] && c.expectedRevision == 1
    ensures ServedPath(refs, path, s, c.request) && |path| > 1 && path[1] == t
    ensures EmbeddingsKept(Last(path)) && !EmbeddingsKept(Stored(Last(path), c))
  {
    var rest := Create(refs, ref, t, c);
    path := Prepend(refs, s, rest, c.request);
    KeptThere(refs, Last(rest), c);
    OpposedBreaks(refs, Last(rest), c);
  }

  lemma KeptThere(refs: string -> bool, s: Store, c: ConfigureInput)
    requires Awaits(refs, s, c)
    ensures EmbeddingsKept(s)
  {
    OpenAwaits(refs, s, c);
  }

  /** From the empty store: a profile is published, the request passes its checks, the agent is created
      with an embedding, and the request is stored over it without one. */
  lemma EarlyBreaks(refs: string -> bool, ref: string) returns (path: seq<Store>)
    requires refs(ref)
    ensures ServedPath(refs, path, EMPTY, Early().request) && |path| > 1 && path[1] == ProfileOnly()
    ensures CheckConfiguration(refs, Early().config).Ok? && CheckEmbedding(path[1], Early()).Ok?
    ensures Published(path[1], "o", Early().profile)
    ensures EmbeddingsKept(Last(path)) && !EmbeddingsKept(Stored(Last(path), Early()))
  {
    ProfileIsReady(refs);
    path := CreationBreaks(refs, ref, EMPTY, ProfileOnly(), Early());
  }
}
