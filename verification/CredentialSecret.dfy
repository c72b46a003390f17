/**
  One agent's credential Secret, between the refresher that mints and writes its tokens and the
  recoverer that ends their lineage.

  A State is the Secret as the API server holds it, where one is placed, what the refresher keeps across
  its passes, and how far a pass of it has come. Between any two steps of a pass a recovery may be
  recorded, the Secret placed or changed otherwise, time pass, or the manager restart. The times tokens
  were minted at, and the time of the last recovery, are history no step reads.
 */
module CredentialSecret {
  import opened Options

  type Time = nat

  /** A version of the Secret, none where no Secret is placed. The API server gives none twice. */
  type Version = nat

  const NO_VERSION: Version := 0

  datatype Token = Token(expiresAt: Time, mintedAt: Time)

  /** Tokens minted against one version of the Secret: none, garam's own, or both. */
  datatype Held = Held(version: Version, minted: Time, garam: Option<Token>, control: Option<Token>)

  datatype Secret = Secret(version: Version, refresh: Option<Time>, garam: Option<Token>, control: Option<Token>, lineage: string)

  datatype Audience = ForGaram | ForControl

  /** A mint garam answered: for which version, whether that was still the Secret's, how long garam's own
      token of the two lives, and whether the token was kept, or was of another epoch than the spec's. */
  datatype Minted = Minted(version: Version, audience: Audience, at: Time, life: Time, current: bool, kept: bool)

  datatype Flight = Flight(version: Version, held: Option<Held>)

  datatype State = State(
    secret: Option<Secret>,
    unwritten: Option<Held>,
    flight: Option<Flight>,
    read: Version,                        // the newest version the refresher has read
    now: Time,
    recoveredAt: Time,                    // history
    log: seq<Minted>)                     // history, since the manager started or last saw the agent absent

  function Current(s: State): Version {
    if s.secret.Some? then s.secret.value.version else NO_VERSION
  }

  // ---- The refresher's decisions ----

  /** Minted before against this version and still living is kept; anything else begins anew. */
  function Begin(unwritten: Option<Held>, version: Version, now: Time): Held {
    if unwritten.Some? && unwritten.value.version == version && unwritten.value.garam.Some? && now < unwritten.value.garam.value.expiresAt
    then unwritten.value
    else Held(version, now, None, None)
  }

  // ---- Steps of a pass ----

  /** The Secret's version, as the manager's cache shows it: no older than it showed before. */
  ghost predicate Read(s: State, s': State) {
    exists version :: s.flight.None? && s.read <= version <= Current(s)
      && s' == s.(flight := Some(Flight(version, None)), read := version)
  }

  ghost predicate Choose(s: State, s': State) {
    && s.flight.Some? && s.flight.value.held.None?
    && s' == s.(flight := Some(s.flight.value.(held := Some(Begin(s.unwritten, s.flight.value.version, s.now)))))
  }

  /** The flight's tokens with one more, remembered until they are written. */
  function WithToken(s: State, held: Held, audience: Audience): State
    requires s.flight.Some? && held.garam.Some?
  {
    s.(flight := Some(s.flight.value.(held := Some(held))), unwritten := Some(held), now := s.now + 1,
       log := s.log + [Minted(held.version, audience, s.now, held.garam.value.expiresAt, held.version == Current(s), true)])
  }

  ghost predicate MintGaram(s: State, s': State) {
    && s.flight.Some? && s.flight.value.held.Some? && s.flight.value.held.value.garam.None?
    && exists token: Token :: token.mintedAt == s.now
         && s' == WithToken(s, s.flight.value.held.value.(garam := Some(token)), ForGaram)
  }

  ghost predicate MintControl(s: State, s': State) {
    && s.flight.Some? && s.flight.value.held.Some?
    && s.flight.value.held.value.garam.Some? && s.flight.value.held.value.control.None?
    && exists token: Token :: token.mintedAt == s.now
         && s' == WithToken(s, s.flight.value.held.value.(control := Some(token)), ForControl)
  }

  /** garam minted the token at another epoch than the spec names: it is not kept, and the pass ends. */
  ghost predicate Discard(s: State, s': State) {
    && s.flight.Some? && s.flight.value.held.Some?
    && (s.flight.value.held.value.garam.None? || s.flight.value.held.value.control.None?)
    && exists life :: s' == Discarded(s, s.flight.value.held.value, life)
  }

  function Discarded(s: State, held: Held, life: Time): State {
    var minted := if held.garam.None? then Minted(held.version, ForGaram, s.now, life, held.version == Current(s), false)
                  else Minted(held.version, ForControl, s.now, held.garam.value.expiresAt, held.version == Current(s), false);
    s.(flight := None, now := s.now + 1, log := s.log + [minted])
  }

  /** The pass has both tokens in hand. */
  ghost predicate BothMinted(s: State) {
    && s.flight.Some? && s.flight.value.held.Some?
    && s.flight.value.held.value.garam.Some? && s.flight.value.held.value.control.Some?
  }

  function Wrote(s: State, held: Held, due: Time, lineage: string, answered: bool): State {
    s.(secret := Some(Secret(Current(s) + 1, Some(due), held.garam, held.control, lineage)),
       flight := None, unwritten := if answered then None else s.unwritten)
  }

  /** The write names the version read: the API server refuses it under any other. */
  ghost predicate Write(s: State, s': State) {
    && BothMinted(s) && s.secret.Some? && s.flight.value.version == s.secret.value.version
    && exists due, answered :: s' == Wrote(s, s.flight.value.held.value, due, s.secret.value.lineage, answered)
  }

  /** Where no version was read the Secret is created: the API server refuses one that is there. */
  ghost predicate Create(s: State, s': State) {
    && BothMinted(s) && s.secret.None? && s.flight.value.version == NO_VERSION
    && exists due, answered :: s' == Wrote(s, s.flight.value.held.value, due, "", answered)
  }

  /** The pass ends: a mint refused, the write refused or not answered, or nothing due. */
  ghost predicate EndPass(s: State, s': State) {
    s.flight.Some? && s' == s.(flight := None)
  }

  // ---- Everyone else ----

  /** The recoverer's one patch: the lineage recorded and the refresh time removed. Where no Secret is
      placed there is nothing to patch, and the recovery is over all the same. */
  ghost predicate Recovered(s: State, s': State) {
    exists lineage :: s' == WithLineage(s, lineage)
  }

  function WithLineage(s: State, lineage: string): State {
    var recovered := s.(recoveredAt := s.now, now := s.now + 1);
    match s.secret
    case None => recovered
    case Some(secret) =>
      recovered.(secret := Some(secret.(version := secret.version + 1, refresh := None, lineage := lineage)))
  }

  /** Any other write of the Secret, which leaves its tokens and its refresh time; or someone places one,
      with no tokens of ours. */
  ghost predicate Touched(s: State, s': State) {
    match s.secret
    case Some(secret) => s' == s.(secret := Some(secret.(version := secret.version + 1)))
    case None => exists lineage :: s' == s.(secret := Some(Secret(1, None, None, None, lineage)))
  }

  ghost predicate Tick(s: State, s': State) {
    s' == s.(now := s.now + 1)
  }

  /** The manager starts again, or lists the agents without this one: what was minted is forgotten. */
  ghost predicate Forget(s: State, s': State) {
    s' == s.(unwritten := None, flight := None, log := [])
  }

  ghost predicate Next(s: State, s': State) {
    || Read(s, s') || Choose(s, s') || MintGaram(s, s') || MintControl(s, s') || Discard(s, s') || Write(s, s') || Create(s, s')
    || EndPass(s, s') || Recovered(s, s') || Touched(s, s') || Tick(s, s') || Forget(s, s')
  }

  /** Nothing minted yet, and a credential Secret placed for the adapter or none. */
  ghost predicate Initial(s: State) {
    && (s.secret.Some? ==> s.secret.value.version > NO_VERSION && s.secret.value.refresh.None?)
    && s.unwritten.None? && s.flight.None? && s.log == []
    && s.read <= Current(s) && s.recoveredAt < s.now
  }

  ghost predicate StepAt(run: seq<State>, i: nat)
    requires i < |run| - 1
  {
    Next(run[i], run[i + 1])
  }

  ghost predicate IsRun(run: seq<State>) {
    && run != [] && Initial(run[0])
    && forall i | 0 <= i < |run| - 1 :: StepAt(run, i)
  }

  // ---- Lineage ----

  ghost predicate After(t: Option<Token>, recoveredAt: Time) {
    t.Some? ==> recoveredAt < t.value.mintedAt
  }

  /** A Secret with a refresh time holds both tokens, minted after the last recovery. */
  ghost predicate LineageOk(s: State) {
    s.secret.Some? && s.secret.value.refresh.Some? ==>
      && s.secret.value.garam.Some? && s.secret.value.control.Some?
      && After(s.secret.value.garam, s.recoveredAt) && After(s.secret.value.control, s.recoveredAt)
  }

  /** Tokens minted against the version of a Secret that is placed were minted after its last recovery: a
      recovery changes that version, and no version comes twice. No control token is older than the token
      for garam it was minted beside. */
  ghost predicate HeldOk(s: State, held: Held) {
    && held.version <= s.read
    && (s.secret.Some? && held.version == s.secret.value.version ==> After(held.garam, s.recoveredAt) && After(held.control, s.recoveredAt))
    && (held.garam.Some? ==> held.garam.value.mintedAt < s.now)
    && (held.control.Some? ==> held.garam.Some? && held.garam.value.mintedAt < held.control.value.mintedAt)
  }

  ghost predicate HoldersOk(s: State) {
    && s.recoveredAt < s.now && s.read <= Current(s)
    && (s.secret.Some? ==> s.secret.value.version > NO_VERSION)
    && (s.secret.Some? && s.secret.value.refresh.Some? ==> s.secret.value.garam.Some? && s.secret.value.control.Some?)
    && (s.unwritten.Some? ==> HeldOk(s, s.unwritten.value) && s.unwritten.value.garam.Some?)
    && (s.flight.Some? ==>
          && s.flight.value.version <= s.read
          && (s.flight.value.held.Some? ==>
                && HeldOk(s, s.flight.value.held.value) && s.flight.value.held.value.version == s.flight.value.version
                && (if s.flight.value.held.value.garam.Some? then s.unwritten == s.flight.value.held
                    else s.flight.value.held == Some(Begin(s.unwritten, s.flight.value.version, s.now).(minted := s.flight.value.held.value.minted)))))
  }

  lemma MintKeepsHolders(s: State, s': State)
    requires HoldersOk(s) && (MintGaram(s, s') || MintControl(s, s'))
    ensures HoldersOk(s')
  {
  }

  lemma WriteKeepsHolders(s: State, s': State)
    requires HoldersOk(s) && (Write(s, s') || Create(s, s'))
    ensures HoldersOk(s')
  {
  }

  lemma OthersKeepHolders(s: State, s': State)
    requires HoldersOk(s) && (Recovered(s, s') || Touched(s, s') || Tick(s, s') || Forget(s, s') || EndPass(s, s') || Discard(s, s'))
    ensures HoldersOk(s')
  {
  }

  lemma NextKeepsHolders(s: State, s': State)
    requires HoldersOk(s) && Next(s, s')
    ensures HoldersOk(s')
  {
    if MintGaram(s, s') || MintControl(s, s') {
      MintKeepsHolders(s, s');
    } else if Write(s, s') || Create(s, s') {
      WriteKeepsHolders(s, s');
    } else if !Read(s, s') && !Choose(s, s') {
      OthersKeepHolders(s, s');
    }
  }

  lemma {:induction false} RunHoldersOk(run: seq<State>, i: nat)
    requires IsRun(run) && i < |run|
    ensures HoldersOk(run[i])
  {
    if i > 0 {
      RunHoldersOk(run, i - 1);
      assert StepAt(run, i - 1);
      NextKeepsHolders(run[i - 1], run[i]);
    }
  }

  /** Only a Secret created where none was placed can break the lineage; a write under a version read, and
      a recovery's patch, mend it. */
  lemma LineageStep(s: State, s': State)
    requires HoldersOk(s) && Next(s, s')
    ensures LineageOk(s) && !Create(s, s') ==> LineageOk(s')
    ensures Write(s, s') || Recovered(s, s') ==> LineageOk(s')
    ensures Create(s, s') ==> (LineageOk(s') <==> After(s.flight.value.held.value.garam, s.recoveredAt))
  {
    if Write(s, s') {
      var due, answered :| s' == Wrote(s, s.flight.value.held.value, due, s.secret.value.lineage, answered);
    } else if Create(s, s') {
      var due, answered :| s' == Wrote(s, s.flight.value.held.value, due, "", answered);
    } else if Recovered(s, s') {
      var lineage :| s' == WithLineage(s, lineage);
    }
  }

  /** In every interleaving of passes, refused and unanswered writes, retries of tokens not yet written,
      recoveries and restarts: a credential Secret placed before any of it holds, under a refresh time,
      tokens minted after the last recovery of it. */
  lemma {:induction false} RefreshIsOfLineage(run: seq<State>, i: nat)
    requires IsRun(run) && i < |run| && run[0].secret.Some?
    ensures run[i].secret.Some? && LineageOk(run[i])
  {
    if i > 0 {
      RefreshIsOfLineage(run, i - 1);
      RunHoldersOk(run, i - 1);
      assert StepAt(run, i - 1);
      LineageStep(run[i - 1], run[i]);
    }
  }

  // ---- A Secret created ----

  /** The token for garam that the pass under way would write, or one that began now with no version read. */
  ghost function Carried(s: State): Option<Token> {
    if s.flight.Some? && s.flight.value.held.Some? then s.flight.value.held.value.garam
    else Begin(s.unwritten, NO_VERSION, s.now).garam
  }

  /** The token is kept through the step: the manager goes on, and a pass that takes up what is unwritten
      finds the token living. */
  ghost predicate Keeps(s: State, s': State, t: Token) {
    && !Forget(s, s')
    && (Choose(s, s') ==> s.now < t.expiresAt)
  }

  ghost predicate KeptAt(run: seq<State>, k: nat, t: Token)
    requires k < |run| - 1
  {
    Keeps(run[k], run[k + 1], t)
  }

  /** At the j-th step a recovery ran with no Secret placed, and the token carried then, minted before it,
      was kept until the c-th. */
  ghost predicate StrandedAt(run: seq<State>, j: nat, c: nat) {
    && j < c < |run| && Recovered(run[j], run[j + 1]) && run[j].secret.None?
    && Carried(run[j]).Some?
    && forall k | j < k < c :: KeptAt(run, k, Carried(run[j]).value)
  }

  ghost predicate Stranded(run: seq<State>, c: nat) {
    exists j: nat :: StrandedAt(run, j, c)
  }

  /** A token older than the last recovery was carried before the step too, and kept through it. */
  lemma CarriedBefore(s: State, s': State, t: Token)
    requires HoldersOk(s) && Next(s, s') && s'.secret.None?
    requires Carried(s') == Some(t) && t.mintedAt <= s'.recoveredAt
    ensures s.secret.None? && Carried(s) == Some(t) && Keeps(s, s', t)
    ensures Recovered(s, s') || s'.recoveredAt == s.recoveredAt
  {
  }

  lemma StrandedOn(run: seq<State>, j: nat, c: nat)
    requires c + 1 < |run| && StrandedAt(run, j, c) && KeptAt(run, c, Carried(run[j]).value)
    ensures StrandedAt(run, j, c + 1)
  {
  }

  lemma {:induction false} CarriedSince(run: seq<State>, c: nat, t: Token) returns (j: nat)
    requires IsRun(run) && c < |run| && run[c].secret.None?
    requires Carried(run[c]) == Some(t) && t.mintedAt <= run[c].recoveredAt
    ensures StrandedAt(run, j, c) && Carried(run[j]) == Some(t)
  {
    assert c > 0;
    var s, s' := run[c - 1], run[c];
    RunHoldersOk(run, c - 1);
    assert StepAt(run, c - 1);
    CarriedBefore(s, s', t);
    if Recovered(s, s') {
      j := c - 1;
    } else {
      j := CarriedSince(run, c - 1, t);
      StrandedOn(run, j, c - 1);
    }
  }

  /** What is held is the token, in the pass under way too. */
  ghost predicate HoldsOn(s: State, t: Token) {
    && s.secret.None? && s.unwritten.Some? && s.unwritten.value.garam == Some(t) && t.mintedAt < s.recoveredAt
    && (s.flight.Some? && s.flight.value.held.Some? ==> s.flight.value.held.value.garam.Some?)
  }

  lemma HoldsOnAfter(s: State, s': State, t: Token)
    requires HoldersOk(s) && Next(s, s') && s'.secret.None? && HoldsOn(s, t) && Keeps(s, s', t)
    ensures HoldsOn(s', t)
  {
  }

  lemma UnplacedBefore(s: State, s': State)
    requires Next(s, s') && s'.secret.None?
    ensures s.secret.None?
  {
  }

  lemma {:induction false} AllUnplaced(run: seq<State>, k: nat, c: nat)
    requires IsRun(run) && k <= c < |run| && run[c].secret.None?
    ensures run[k].secret.None?
    decreases c - k
  {
    if k < c {
      AllUnplaced(run, k + 1, c);
      assert StepAt(run, k);
      UnplacedBefore(run[k], run[k + 1]);
    }
  }

  lemma {:induction false} HoldsUntil(run: seq<State>, j: nat, c: nat, k: nat)
    requires IsRun(run) && StrandedAt(run, j, c) && run[c].secret.None? && j < k <= c
    ensures HoldsOn(run[k], Carried(run[j]).value)
    decreases k
  {
    RunHoldersOk(run, k - 1);
    assert StepAt(run, k - 1);
    AllUnplaced(run, k, c);
    if k > j + 1 {
      HoldsUntil(run, j, c, k - 1);
      assert KeptAt(run, k - 1, Carried(run[j]).value);
      HoldsOnAfter(run[k - 1], run[k], Carried(run[j]).value);
    }
  }

  /** In every run, a Secret the refresher creates holds tokens older than the last recovery exactly when
      a recovery ran with no Secret placed, while a token minted before it was unwritten, and the token was
      kept from then on: the manager was not started again, and every pass found the token living. */
  lemma CreatedIsOldIffStranded(run: seq<State>, c: nat)
    requires IsRun(run) && c + 1 < |run| && Create(run[c], run[c + 1])
    ensures !LineageOk(run[c + 1]) <==> Stranded(run, c)
  {
    RunHoldersOk(run, c);
    LineageStep(run[c], run[c + 1]);
    var t := Carried(run[c]).value;
    if !LineageOk(run[c + 1]) {
      var j := CarriedSince(run, c, t);
    }
    if Stranded(run, c) {
      var j: nat :| StrandedAt(run, j, c);
      HoldsUntil(run, j, c, c);
    }
  }

  // ---- Every Secret ----

  ghost predicate WritesAt(run: seq<State>, k: nat)
    requires k < |run| - 1
  {
    Write(run[k], run[k + 1]) || Recovered(run[k], run[k + 1])
  }

  /** The Secret was created so at the c-th step, and neither written nor patched since. */
  ghost predicate CreatedOldAt(run: seq<State>, c: nat, i: nat) {
    && c < i < |run| && Create(run[c], run[c + 1]) && Stranded(run, c)
    && forall k | c < k < i :: !WritesAt(run, k)
  }

  lemma {:induction false} StaysOld(run: seq<State>, c: nat, i: nat)
    requires IsRun(run) && CreatedOldAt(run, c, i)
    ensures run[i].secret.Some? && !LineageOk(run[i])
    decreases i
  {
    RunHoldersOk(run, i - 1);
    assert StepAt(run, i - 1);
    if c + 1 < i {
      StaysOld(run, c, i - 1);
      assert !WritesAt(run, i - 1);
    } else {
      CreatedIsOldIffStranded(run, c);
    }
  }

  lemma {:induction false} OldWasCreated(run: seq<State>, i: nat)
    requires IsRun(run) && i < |run| && !LineageOk(run[i])
    ensures exists c: nat :: CreatedOldAt(run, c, i)
  {
    assert i > 0;
    RunHoldersOk(run, i - 1);
    assert StepAt(run, i - 1);
    LineageStep(run[i - 1], run[i]);
    if Create(run[i - 1], run[i]) {
      CreatedIsOldIffStranded(run, i - 1);
      assert CreatedOldAt(run, i - 1, i);
    } else {
      OldWasCreated(run, i - 1);
      var c: nat :| CreatedOldAt(run, c, i - 1);
      assert !WritesAt(run, i - 1);
      assert CreatedOldAt(run, c, i);
    }
  }

  /** In every run, placed or not: a credential Secret holds, under a refresh time, a token older than the
      last recovery exactly when it was created so, and neither written nor patched since. */
  lemma RefreshIsOldIffStranded(run: seq<State>, i: nat)
    requires IsRun(run) && i < |run|
    ensures !LineageOk(run[i]) <==> exists c: nat :: CreatedOldAt(run, c, i)
  {
    if !LineageOk(run[i]) {
      OldWasCreated(run, i);
    }
    if exists c: nat :: CreatedOldAt(run, c, i) {
      var c: nat :| CreatedOldAt(run, c, i);
      StaysOld(run, c, i);
    }
  }

  /** Such a run: the tokens are minted under no version and their write fails; a recovery finds no Secret
      to patch; and the retry, which still reads no version, creates the Secret from them. */
  lemma UnplacedKeepsOldTokens() returns (run: seq<State>)
    ensures IsRun(run) && run[0].secret.None?
    ensures run[|run| - 1].secret.Some? && run[|run| - 1].secret.value.refresh.Some? && !LineageOk(run[|run| - 1])
  {
    var start := State(None, None, None, NO_VERSION, 1, 0, []);
    var read := start.(flight := Some(Flight(NO_VERSION, None)));
    var chosen := read.(flight := Some(Flight(NO_VERSION, Some(Held(NO_VERSION, 1, None, None)))));
    var garam := WithToken(chosen, Held(NO_VERSION, 1, Some(Token(100, 1)), None), ForGaram);
    var minted := WithToken(garam, Held(NO_VERSION, 1, Some(Token(100, 1)), Some(Token(100, 2))), ForControl);
    var failed := minted.(flight := None);
    var recovered := WithLineage(failed, "b");
    var again := recovered.(flight := Some(Flight(NO_VERSION, None)));
    var kept := again.(flight := Some(Flight(NO_VERSION, minted.unwritten)));
    var created := Wrote(kept, minted.unwritten.value, 70, "", true);
    run := [start, read, chosen, garam, minted, failed, recovered, again, kept, created];
    assert Read(start, read) && Choose(read, chosen) && MintGaram(chosen, garam) && MintControl(garam, minted);
    assert EndPass(minted, failed) && Recovered(failed, recovered) && Read(recovered, again) && Choose(again, kept);
    assert Create(kept, created);
    forall i | 0 <= i < |run| - 1
      ensures StepAt(run, i)
    {
    }
  }

  // ---- Mints ----

  /** While a version is still the Secret's, a token of it is minted and kept again for an audience only
      once the life of the one minted before is over. */
  ghost predicate OneAtATime(log: seq<Minted>) {
    forall i, j | 0 <= i < j < |log| && log[i].kept && log[j].kept
                  && log[i].version == log[j].version && log[i].audience == log[j].audience && log[j].current ::
      log[i].life <= log[j].at
  }

  /** What was minted of the Secret's version is what is held unwritten, unless its life is over. */
  ghost predicate Remembered(s: State) {
    && (forall i | 0 <= i < |s.log| :: s.log[i].version <= s.read && s.log[i].at < s.now)
    && (forall i | 0 <= i < |s.log| && s.log[i].version == Current(s) :: s.log[i].current)
    && (forall i | 0 <= i < |s.log| && s.log[i].kept && s.log[i].version == Current(s) && s.now < s.log[i].life :: Remembers(s.unwritten, s.log[i]))
  }

  ghost predicate Remembers(unwritten: Option<Held>, m: Minted) {
    && unwritten.Some? && unwritten.value.version == m.version && unwritten.value.garam.Some?
    && unwritten.value.garam.value.expiresAt == m.life
    && (m.audience == ForControl ==> unwritten.value.control.Some?)
  }

  /** The pass under way goes on with what is held, or began anew with nothing of it living. */
  ghost predicate FlightOk(s: State) {
    && (s.unwritten.Some? ==> s.unwritten.value.garam.Some?)
    && (s.flight.Some? ==>
          && s.flight.value.version == s.read
          && (s.flight.value.held.Some? ==>
                var held := s.flight.value.held.value;
                && held.version == s.read
                && (s.unwritten == Some(held)
                    || (&& held.garam.None? && held.control.None?
                        && (s.unwritten.Some? && s.unwritten.value.version == held.version ==>
                              s.unwritten.value.garam.value.expiresAt <= s.now)))))
  }

  ghost predicate MintsOk(s: State) {
    s.read <= Current(s) && OneAtATime(s.log) && Remembered(s) && FlightOk(s)
  }

  lemma MintGaramOnce(s: State, s': State)
    requires MintsOk(s) && MintGaram(s, s')
    ensures MintsOk(s')
  {
    assert forall i | 0 <= i < |s.log| :: s.log[i].kept && s.log[i].version == Current(s) && s.now < s.log[i].life ==> Remembers(s.unwritten, s.log[i]);
  }

  lemma MintControlOnce(s: State, s': State)
    requires MintsOk(s) && MintControl(s, s')
    ensures MintsOk(s')
  {
    forall i | 0 <= i < |s.log| && s.log[i].kept && s.log[i].version == Current(s) && s.now < s.log[i].life
      ensures s.log[i].audience == ForGaram && Remembers(s'.unwritten, s.log[i])
    {
      assert Remembers(s.unwritten, s.log[i]);
    }
  }

  lemma NextMintsOnce(s: State, s': State)
    requires MintsOk(s) && Next(s, s')
    ensures MintsOk(s')
  {
    if MintGaram(s, s') {
      MintGaramOnce(s, s');
    } else if MintControl(s, s') {
      MintControlOnce(s, s');
    } else if Discard(s, s') {
      DiscardKeepsMints(s, s');
    }
  }

  lemma DiscardKeepsMints(s: State, s': State)
    requires MintsOk(s) && Discard(s, s')
    ensures MintsOk(s')
  {
  }

  /** In every run, while the Secret's version, or its absence, and the life of garam's token last, an
      agent listed throughout has at most one token per audience minted and kept. */
  lemma {:induction false} MintsOneAtATime(run: seq<State>, i: nat)
    requires IsRun(run) && i < |run|
    ensures MintsOk(run[i])
  {
    if i > 0 {
      MintsOneAtATime(run, i - 1);
      assert StepAt(run, i - 1);
      NextMintsOnce(run[i - 1], run[i]);
    }
  }

  /** How many tokens garam minted for an audience and a version, in whose life, of garam's own token beside
      them, the time falls; and how many of these were of another epoch. */
  function Living(log: seq<Minted>, version: Version, audience: Audience, now: Time): nat {
    if log == [] then 0
    else
      var m := log[|log| - 1];
      Living(log[..|log| - 1], version, audience, now)
      + (if m.version == version && m.audience == audience && now < m.life then 1 else 0)
  }

  function Mismatched(log: seq<Minted>, version: Version, audience: Audience, now: Time): nat {
    if log == [] then 0
    else
      var m := log[|log| - 1];
      Mismatched(log[..|log| - 1], version, audience, now)
      + (if m.version == version && m.audience == audience && now < m.life && !m.kept then 1 else 0)
  }

  ghost predicate KeptLiving(log: seq<Minted>, version: Version, audience: Audience, now: Time, i: int) {
    0 <= i < |log| && log[i].version == version && log[i].audience == audience && now < log[i].life && log[i].kept
  }

  lemma {:induction false} OneKept(log: seq<Minted>, version: Version, audience: Audience, now: Time)
    requires OneAtATime(log)
    requires forall i | 0 <= i < |log| :: log[i].at < now && (log[i].version == version ==> log[i].current)
    ensures Living(log, version, audience, now)
            == Mismatched(log, version, audience, now) + (if exists i :: KeptLiving(log, version, audience, now, i) then 1 else 0)
  {
    if log != [] {
      var n := |log| - 1;
      var before := log[..n];
      assert forall i | 0 <= i < n :: before[i] == log[i];
      assert OneAtATime(before);
      OneKept(before, version, audience, now);
      assert forall i | i != n :: KeptLiving(log, version, audience, now, i) <==> KeptLiving(before, version, audience, now, i);
      if KeptLiving(log, version, audience, now, n) {
        assert forall i :: !KeptLiving(before, version, audience, now, i);
      }
    }
  }

  /** So in every run garam mints, of the Secret's version and in the life of garam's token, at most one
      token more for an audience than it minted at another epoch than the spec's. */
  lemma MintsAgainstMismatches(run: seq<State>, i: nat, audience: Audience)
    requires IsRun(run) && i < |run|
    ensures var s := run[i];
            Living(s.log, Current(s), audience, s.now) <= Mismatched(s.log, Current(s), audience, s.now) + 1
  {
    MintsOneAtATime(run, i);
    OneKept(run[i].log, Current(run[i]), audience, run[i].now);
  }
}
