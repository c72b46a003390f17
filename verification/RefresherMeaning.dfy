/** What a pass over one agent asks for, keeps, writes and waits, answer by answer. */
module RefresherMeaning {
  import opened Options
  import opened Domain
  import opened CredentialSecret
  import opened Refresher

  /** Tokens minted before, against the version read, whose garam token lives. */
  ghost predicate StillGood(k: Kept, h: Holder, now: Time) {
    && h.agent in k.unwritten && k.unwritten[h.agent].version == h.version
    && k.unwritten[h.agent].garam.Some? && now < k.unwritten[h.agent].garam.value.expiresAt
  }

  /** What there is of an audience's token once the turn asked for it: the one kept, or garam's answer. */
  ghost function GaramToken(k: Kept, h: Holder, a: Answers): Result<Token, Failure> {
    if StillGood(k, h, a.now) then Ok(k.unwritten[h.agent].garam.value) else a.garam
  }

  ghost function ControlToken(k: Kept, h: Holder, a: Answers): Result<Token, Failure> {
    if StillGood(k, h, a.now) && k.unwritten[h.agent].control.Some? then Ok(k.unwritten[h.agent].control.value) else a.control
  }

  ghost function MintedAt(k: Kept, h: Holder, a: Answers): Time {
    if StillGood(k, h, a.now) then k.unwritten[h.agent].minted else a.now
  }

  /** garam's own token is asked for first, then the control token, then both are written; the first failure is
      the turn's, and leaves kept what was in hand before it; and a write that lands leaves nothing kept. */
  lemma RefreshSays(k: Kept, h: Holder, a: Answers)
    ensures var (next, result) := RefreshOne(k, h, a);
            var garam, control, minted := GaramToken(k, h, a), ControlToken(k, h, a), MintedAt(k, h, a);
            && (garam.Err? ==> next == k && result == Err(garam.error))
            && (garam.Ok? && control.Err? ==>
                  && result == Err(control.error)
                  && next == k.(unwritten := k.unwritten[h.agent := Held(h.version, minted, Some(garam.value), None)]))
            && (garam.Ok? && control.Ok? && a.write.Err? ==>
                  && result == Err(a.write.error)
                  && next == k.(unwritten := k.unwritten[h.agent := Held(h.version, minted, Some(garam.value), Some(control.value))]))
            && (garam.Ok? && control.Ok? && a.write.Ok? ==> result == Ok(()) && next == k.(unwritten := k.unwritten - {h.agent}))
  {
    if StillGood(k, h, a.now) {
      var held := k.unwritten[h.agent];
      assert held == Held(h.version, held.minted, held.garam, held.control);
      assert k.unwritten[h.agent := held] == k.unwritten;
    }
  }

  ghost predicate Skipped(k: Kept, h: Holder, now: Time) {
    (h.failure.None? && now < h.due) || (h.agent in k.waiting && now < k.waiting[h.agent])
  }

  /** The wait of a failure: five minutes where garam does not hold the agent for the operator, minted at
      another epoch, or the epoch cannot be read; half a minute otherwise. */
  ghost predicate Waits(f: Failure, seconds: nat) {
    match f
    case NotHeld => seconds == 300
    case EpochSuperseded => seconds == 300
    case EpochUnreadable => seconds == 300
    case OtherFailure => seconds == 30
  }

  /** A turn not due, or waiting, does nothing; one that fails waits; and one that succeeds waits for nothing. */
  lemma TurnSays(k: Kept, h: Holder, a: Answers)
    ensures Skipped(k, h, a.now) ==> Turn(k, h, a) == k
    ensures !Skipped(k, h, a.now) && h.failure.Some? ==>
              exists seconds :: Waits(h.failure.value, seconds) && Turn(k, h, a) == k.(waiting := k.waiting[h.agent := a.now + seconds])
    ensures !Skipped(k, h, a.now) && h.failure.None? ==>
              var (next, result) := RefreshOne(k, h, a);
              match result
              case Ok(_) => Turn(k, h, a) == next.(waiting := next.waiting - {h.agent})
              case Err(f) => exists seconds :: Waits(f, seconds) && Turn(k, h, a) == next.(waiting := next.waiting[h.agent := a.now + seconds])
  {
    if h.failure.Some? {
      assert Waits(h.failure.value, Pause(h.failure.value));
    } else if RefreshOne(k, h, a).1.Err? {
      assert Waits(RefreshOne(k, h, a).1.error, Pause(RefreshOne(k, h, a).1.error));
    }
  }

  /** After a pass, nothing is kept of an agent it did not list. */
  lemma PassForgets(k: Kept, holders: seq<Holder>, answers: seq<Answers>, agent: GRN)
    requires |holders| == |answers| && forall i | 0 <= i < |holders| :: holders[i].agent != agent
    ensures agent !in Pass(k, holders, answers).waiting && agent !in Pass(k, holders, answers).unwritten
  {
  }
}
