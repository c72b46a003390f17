/**
  A source of garam tokens: it holds one at a time, and exchanges for the next no more often than its
  backoff allows. Durations are of 64 bits, as the source computes them, and wrap where it lets them.
 */
module MachineToken {
  import opened Options
  import opened Streak

  const SECOND: int := 1_000_000_000
  const LAST_BACKOFF: int := 300 * SECOND
  const TWO_63: int := 0x8000_0000_0000_0000
  const TWO_64: int := 0x1_0000_0000_0000_0000

  // ---- Durations ----

  function Wrap(x: int): (r: int)
    ensures -TWO_63 <= r < TWO_63
    ensures -TWO_63 <= x < TWO_63 ==> r == x
  {
    (x + TWO_63) % TWO_64 - TWO_63
  }

  function Lifetime(expiresIn: int): int {
    Wrap(expiresIn * SECOND)
  }

  /** Division towards zero. */
  function Third(x: int): int {
    if x >= 0 then x / 3 else -(-x / 3)
  }

  /** The first two thirds of a lifetime. */
  function RefreshAfter(lifetime: int): int {
    Third(Wrap(lifetime * 2))
  }

  function Pow2(n: nat): nat {
    if n == 0 then 1 else 2 * Pow2(n - 1)
  }

  function Min(a: int, b: int): int {
    if a < b then a else b
  }

  /** The wait after so many failed exchanges in a row: a shift of one second, of at most 16 places. */
  function Backoff(failures: int): int
    requires failures >= 1
  {
    Min(Wrap(SECOND * Pow2(Min(failures - 1, 16))), LAST_BACKOFF)
  }

  /** Retry-After in seconds, no wait where it is absent or not positive. */
  function RetryAfter(seconds: Option<int>): int {
    if seconds.None? || seconds.value <= 0 then 0 else Wrap(seconds.value * SECOND)
  }

  function Wait(failures: int, retryAfter: Option<int>): int
    requires failures >= 1
  {
    if RetryAfter(retryAfter) > 0 then RetryAfter(retryAfter) else Backoff(failures)
  }

  // ---- The source ----

  /** What an exchange comes to. An answer with no token, or no lifetime, is a failure. */
  datatype Answer =
    | Answered(token: string, clientID: string, expiresIn: int)
    | Failed(error: string, retryAfter: Option<int>)

  predicate Sound(a: Answer) {
    a.Answered? ==> a.token != "" && a.expiresIn > 0
  }

  datatype State = State(
    token: string, clientID: string, refresh: Time, expiry: Time, failures: nat, until: Option<Time>, failed: Option<string>,
    streak: Streak)

  const EMPTY := State("", "", 0, 0, 0, None, None, QUIET)
  const NO_TOKEN := "no garam token is held"

  datatype Credential = Presented(token: string, clientID: string)

  function Exchange(s: State, now: Time, a: Answer): State {
    match a
    case Answered(token, clientID, expiresIn) =>
      s.(token := token, clientID := clientID, expiry := now + Lifetime(expiresIn),
         refresh := now + RefreshAfter(Lifetime(expiresIn)), failures := 0, until := None, failed := None,
         streak := End(s.streak, ByExchange))
    case Failed(error, retryAfter) =>
      s.(failures := s.failures + 1, until := Some(now + Wait(s.failures + 1, retryAfter)), failed := Some(error),
         streak := Fail(s.streak, now, ByExchange, error))
  }

  /** The token held while it lives, and the last failure otherwise. */
  function HeldToken(s: State, now: Time): Result<Credential, string> {
    if s.token != "" && now < s.expiry then Ok(Presented(s.token, s.clientID))
    else Err(if s.failed.Some? then s.failed.value else NO_TOKEN)
  }

  predicate Sends(s: State, now: Time) {
    !(s.token != "" && now < s.refresh) && !(s.until.Some? && now < s.until.value)
  }

  /** The credential to present now: the one held until its refresh, a new one where an exchange may be
      sent, and otherwise what is held while it lives. */
  function Present(s: State, now: Time, a: Answer): (State, Result<Credential, string>) {
    if s.token != "" && now < s.refresh then (s, Ok(Presented(s.token, s.clientID)))
    else if !Sends(s, now) then (s, HeldToken(s, now))
    else
      var next := Exchange(s, now, a);
      (next, if a.Answered? then Ok(Presented(next.token, next.clientID)) else HeldToken(next, now))
  }

  function Invalidated(s: State, token: string): State {
    if s.token == token then s.(token := "") else s
  }

  // ---- Everything it sent ----

  datatype Attempt = Attempt(at: Time, answer: Answer)

  function Trailing(attempts: seq<Attempt>): nat {
    if attempts == [] || attempts[|attempts| - 1].answer.Answered? then 0 else 1 + Trailing(attempts[..|attempts| - 1])
  }

  /** The wait each failed exchange was answered with. */
  function WaitAfter(attempts: seq<Attempt>, i: nat): int
    requires i < |attempts| && attempts[i].answer.Failed?
  {
    Wait(1 + Trailing(attempts[..i]), attempts[i].answer.retryAfter)
  }

  /** The token is one an exchange answered, with its client id and its times, the last to answer. */
  ghost predicate FromExchange(s: State, attempts: seq<Attempt>, i: nat)
    requires i < |attempts|
  {
    && attempts[i].answer.Answered? && s.token == attempts[i].answer.token && s.clientID == attempts[i].answer.clientID
    && s.expiry == attempts[i].at + Lifetime(attempts[i].answer.expiresIn)
    && s.refresh == attempts[i].at + RefreshAfter(Lifetime(attempts[i].answer.expiresIn))
    && forall j | i < j < |attempts| :: attempts[j].answer.Failed?
  }

  ghost predicate SourceOk(s: State, attempts: seq<Attempt>, now: Time) {
    && (s.token != "" ==> exists i | 0 <= i < |attempts| :: FromExchange(s, attempts, i))
    && (forall i | 0 <= i < |attempts| :: attempts[i].at <= now && Sound(attempts[i].answer))
    && s.failures == Trailing(attempts)
    && (s.failures == 0 ==> s.until.None? && s.failed.None?)
    && (s.failures > 0 ==>
          && s.until == Some(attempts[|attempts| - 1].at + WaitAfter(attempts, |attempts| - 1))
          && s.failed == Some(attempts[|attempts| - 1].answer.error)
          && (s.token != "" ==> s.refresh <= attempts[|attempts| - 1].at))
    && (forall i | 0 <= i < |attempts| - 1 :: Paced(attempts, i))
  }

  /** The next exchange after a failed one was sent no earlier than its wait allowed. */
  ghost predicate Paced(attempts: seq<Attempt>, i: int)
    requires 0 <= i < |attempts| - 1
  {
    attempts[i].answer.Failed? ==> attempts[i].at + WaitAfter(attempts, i) <= attempts[i + 1].at
  }

  lemma PacedStays(attempts: seq<Attempt>, x: Attempt, i: int)
    requires 0 <= i < |attempts| - 1 && Paced(attempts, i)
    ensures Paced(attempts + [x], i)
  {
    assert (attempts + [x])[..i] == attempts[..i];
  }

  lemma ExchangeKeeps(s: State, attempts: seq<Attempt>, was: Time, now: Time, a: Answer)
    requires SourceOk(s, attempts, was) && was <= now && Sends(s, now) && Sound(a)
    ensures SourceOk(Exchange(s, now, a), attempts + [Attempt(now, a)], now)
  {
    var t := Exchange(s, now, a);
    var next := attempts + [Attempt(now, a)];
    assert next[..|attempts|] == attempts;
    forall i | 0 <= i < |next| - 1
      ensures Paced(next, i)
    {
      if i < |attempts| - 1 {
        PacedStays(attempts, Attempt(now, a), i);
      } else {
        assert next[..i] == attempts[..i];
      }
    }
    if t.token != "" {
      if a.Answered? {
        assert FromExchange(t, next, |attempts|);
      } else {
        var i :| 0 <= i < |attempts| && FromExchange(s, attempts, i);
        assert FromExchange(t, next, i);
      }
    }
  }

  lemma LaterKeeps(s: State, attempts: seq<Attempt>, was: Time, now: Time)
    requires SourceOk(s, attempts, was) && was <= now
    ensures SourceOk(s, attempts, now)
  {
  }

  lemma StreakKeeps(s: State, attempts: seq<Attempt>, now: Time, streak: Streak)
    requires SourceOk(s, attempts, now)
    ensures SourceOk(s.(streak := streak), attempts, now)
  {
    if s.token != "" {
      var i :| 0 <= i < |attempts| && FromExchange(s, attempts, i);
      assert FromExchange(s.(streak := streak), attempts, i);
    }
  }

  lemma InvalidatedKeeps(s: State, attempts: seq<Attempt>, now: Time, token: string)
    requires SourceOk(s, attempts, now)
    ensures SourceOk(Invalidated(s, token), attempts, now)
  {
    var t := Invalidated(s, token);
    if t.token != "" {
      var i :| 0 <= i < |attempts| && FromExchange(s, attempts, i);
      assert FromExchange(t, attempts, i);
    }
  }

  // ---- What it answers ----

  lemma RefreshIsWithin(lifetime: int)
    requires 0 < lifetime < TWO_63
    ensures RefreshAfter(lifetime) <= lifetime
  {
  }

  /** Whatever was asked, invalidated and answered before: a credential answered is the token and the
      client id of one exchange, and it is unexpired exactly where that exchange's lifetime, in the width
      the source keeps it in, is positive. */
  lemma AnsweredIsLive(s: State, attempts: seq<Attempt>, was: Time, now: Time, a: Answer)
    requires SourceOk(s, attempts, was) && was <= now && Sound(a) && Present(s, now, a).1.Ok?
    ensures var sent := if Sends(s, now) then attempts + [Attempt(now, a)] else attempts;
            exists i | 0 <= i < |sent| ::
              && sent[i].answer.Answered?
              && Present(s, now, a).1.value == Presented(sent[i].answer.token, sent[i].answer.clientID)
              && (now < sent[i].at + Lifetime(sent[i].answer.expiresIn) <==> Lifetime(sent[i].answer.expiresIn) > 0)
  {
    var sent := if Sends(s, now) then attempts + [Attempt(now, a)] else attempts;
    if Sends(s, now) && a.Answered? {
      assert sent[|attempts|] == Attempt(now, a);
    } else {
      var i :| 0 <= i < |attempts| && FromExchange(s, attempts, i);
      assert sent[i] == attempts[i];
      if Lifetime(attempts[i].answer.expiresIn) > 0 {
        RefreshIsWithin(Lifetime(attempts[i].answer.expiresIn));
      }
    }
  }

  /** Lifetimes of up to 292 years, and no longer ones, are kept as garam answers them. A longer one is
      positive or not as its nanoseconds, of which 64 bits are kept, fall. */
  lemma LifetimeIsPositive(expiresIn: int)
    requires 0 < expiresIn
    ensures Lifetime(expiresIn) == expiresIn * SECOND <==> expiresIn <= 9_223_372_036
    ensures Lifetime(expiresIn) > 0 <==> 0 < expiresIn * SECOND % TWO_64 < TWO_63
  {
    WrapIs(expiresIn * SECOND);
  }

  /** One second past them, a source with nothing held answers a token it takes to have expired. */
  lemma LongLifetimeExpires(token: string, clientID: string, now: Time)
    requires token != ""
    ensures var a := Answered(token, clientID, 9_223_372_037);
            && Sound(a) && Present(EMPTY, now, a).1 == Ok(Presented(token, clientID))
            && Present(EMPTY, now, a).0.expiry < now
            && HeldToken(Present(EMPTY, now, a).0, now).Err?
  {
    LifetimeIsPositive(9_223_372_037);
  }

  lemma WrapIs(x: int)
    ensures Wrap(x) == if x % TWO_64 < TWO_63 then x % TWO_64 else x % TWO_64 - TWO_64
  {
    var y := x % TWO_64;
    assert x == x / TWO_64 * TWO_64 + y;
    if y < TWO_63 {
      assert (x + TWO_63) / TWO_64 == x / TWO_64;
    } else {
      assert (x + TWO_63) / TWO_64 == x / TWO_64 + 1;
    }
  }

  /** No exchange is sent before the time the last failure recorded. */
  lemma SendsNoEarlier(s: State, attempts: seq<Attempt>, now: Time)
    requires SourceOk(s, attempts, now) && attempts != [] && attempts[|attempts| - 1].answer.Failed? && Sends(s, now)
    ensures attempts[|attempts| - 1].at + WaitAfter(attempts, |attempts| - 1) <= now
  {
  }

  lemma {:induction false} Pow2Grows(a: nat, b: nat)
    requires a <= b
    ensures 1 <= Pow2(a) <= Pow2(b)
    decreases b
  {
    if a < b {
      Pow2Grows(a, b - 1);
    } else if b > 0 {
      Pow2Grows(a - 1, b - 1);
    }
  }

  /** The wait after k failures in a row, without a Retry-After, is 2^(k-1) seconds, at most five minutes:
      the shift never overflows, and where it is cut short the five minutes already stand. */
  lemma BackoffDoubles(failures: nat)
    requires failures >= 1
    ensures Backoff(failures) == Min(Pow2(failures - 1) * SECOND, LAST_BACKOFF)
    ensures Wait(failures, None) == Backoff(failures)
  {
    assert Pow2(4) == 16 && Pow2(8) == 256 && Pow2(9) == 512;
    assert Pow2(12) == 4096 && Pow2(16) == 65536;
    if failures - 1 >= 9 {
      Pow2Grows(9, failures - 1);
      Pow2Grows(9, Min(failures - 1, 16));
      Pow2Grows(Min(failures - 1, 16), 16);
    } else {
      Pow2Grows(failures - 1, 9);
    }
  }

  // ---- The source as it runs ----

  class Source {
    var token: string
    var clientID: string
    var refresh: Time
    var expiry: Time
    var failures: nat
    var until: Option<Time>
    var failed: Option<string>
    var since: Option<Time>
    var cause: Cause
    var last: Option<string>
    ghost var attempts: seq<Attempt>
    ghost var history: seq<Event>
    ghost var clock: Time

    constructor ()
      ensures Valid() && Snap() == EMPTY && attempts == [] && history == []
    {
      token, clientID, refresh, expiry := "", "", 0, 0;
      failures, until, failed := 0, None, None;
      since, cause, last := None, NoCause, None;
      attempts, history, clock := [], [], 0;
    }

    ghost function Snap(): State
      reads this
    {
      State(token, clientID, refresh, expiry, failures, until, failed, Fields(since, cause, last))
    }

    ghost predicate Valid()
      reads this
    {
      SourceOk(Snap(), attempts, clock) && Snap().streak == Fold(history)
    }

    method FailStreak(now: Time, c: Cause, error: string)
      modifies this`since, this`cause, this`last
      ensures Fields(since, cause, last) == Fail(old(Fields(since, cause, last)), now, c, error)
    {
      if since.None? {
        since := Some(now);
      }
      if Rank(cause) < Rank(c) {
        cause := c;
      }
      last := Some(error);
    }

    method EndStreak(c: Cause)
      modifies this`since, this`cause, this`last
      ensures Fields(since, cause, last) == End(old(Fields(since, cause, last)), c)
    {
      if Rank(cause) <= Rank(c) {
        since, cause, last := None, NoCause, None;
      }
    }

    /** The credential to present now; an exchange, where one is sent, comes to the answer given. */
    method Credential(now: Time, a: Answer) returns (r: Result<Credential, string>)
      requires Valid() && clock <= now && Sound(a)
      modifies this
      ensures Valid() && clock == now
      ensures (Snap(), r) == Present(old(Snap()), now, a)
      ensures attempts == if Sends(old(Snap()), now) then old(attempts) + [Attempt(now, a)] else old(attempts)
      ensures history == if !Sends(old(Snap()), now) then old(history)
                         else old(history) + [if a.Answered? then ExchangeAnswered else ExchangeFailed(now, a.error)]
    {
      LaterKeeps(Snap(), attempts, clock, now);
      ghost var was := clock;
      clock := now;
      if token != "" && now < refresh {
        return Ok(Presented(token, clientID));
      }
      if until.Some? && now < until.value {
        r := Held(now);
        return;
      }
      ExchangeKeeps(Snap(), attempts, was, now, a);
      ghost var e := if a.Answered? then ExchangeAnswered else ExchangeFailed(now, a.error);
      assert (history + [e])[..|history|] == history;
      ExchangeNow(now, a);
      attempts, history := attempts + [Attempt(now, a)], history + [e];
      if a.Failed? {
        r := Held(now);
      } else {
        r := Ok(Presented(token, clientID));
      }
    }

    method Held(now: Time) returns (r: Result<Credential, string>)
      ensures r == HeldToken(Snap(), now)
    {
      if token != "" && now < expiry {
        return Ok(Presented(token, clientID));
      }
      r := Err(if failed.Some? then failed.value else NO_TOKEN);
    }

    method ExchangeNow(now: Time, a: Answer)
      modifies this
      ensures Snap() == Exchange(old(Snap()), now, a)
      ensures attempts == old(attempts) && history == old(history) && clock == old(clock)
    {
      match a {
        case Failed(error, retryAfter) => RecordFailure(now, error, retryAfter);
        case Answered(t, c, expiresIn) => KeepAnswer(now, t, c, expiresIn);
      }
    }

    method RecordFailure(now: Time, error: string, retryAfter: Option<int>)
      modifies this`failures, this`until, this`failed, this`since, this`cause, this`last
      ensures Snap() == Exchange(old(Snap()), now, Failed(error, retryAfter))
    {
      failures := failures + 1;
      var wait := WaitFor(failures, retryAfter);
      until := Some(now + wait);
      failed := Some(error);
      FailStreak(now, ByExchange, error);
    }

    method KeepAnswer(now: Time, t: string, c: string, expiresIn: int)
      modifies this`token, this`clientID, this`expiry, this`refresh
      modifies this`failures, this`until, this`failed, this`since, this`cause, this`last
      ensures Snap() == Exchange(old(Snap()), now, Answered(t, c, expiresIn))
    {
      var lifetime := Lifetime(expiresIn);
      token, clientID, expiry, refresh := t, c, now + lifetime, now + RefreshAfter(lifetime);
      failures, until, failed := 0, None, None;
      EndStreak(ByExchange);
    }

    static method WaitFor(failures: nat, retryAfter: Option<int>) returns (wait: int)
      requires failures >= 1
      ensures wait == Wait(failures, retryAfter)
    {
      wait := RetryAfter(retryAfter);
      if wait <= 0 {
        wait := Backoff(failures);
      }
    }

    /** Drops the token where it is the one held. */
    method Invalidate(dropped: string)
      requires Valid()
      modifies this`token
      ensures Valid() && Snap() == Invalidated(old(Snap()), dropped)
    {
      InvalidatedKeeps(Snap(), attempts, clock, dropped);
      if token == dropped {
        token := "";
      }
    }

    /** What a call presenting the token was answered: nothing, or its status. */
    method ObserveCall(now: Time, status: Option<int>)
      requires Valid()
      modifies this
      ensures Valid() && attempts == old(attempts) && clock == old(clock)
      ensures history == if status.None? || status.value >= 500 then old(history)
                         else old(history) + [if status.value == 401 then CallRefused(now) else CallAnswered]
      ensures Snap() == old(Snap()).(streak := Fold(history))
    {
      if status.None? || status.value >= 500 {
        return;
      }
      ghost var e := if status.value == 401 then CallRefused(now) else CallAnswered;
      assert (history + [e])[..|history|] == history;
      StreakKeeps(Snap(), attempts, clock, Observe(Snap().streak, e));
      history := history + [e];
      if status.value == 401 {
        FailStreak(now, ByCall, CALL_REFUSED);
      } else {
        EndStreak(ByCall);
      }
    }

    /** Whether a run of failures has lasted too long. */
    method CheckNow(now: Time) returns (r: Result<(), string>)
      requires Valid()
      ensures r == Check(Fold(history), now)
    {
      if since.None? || now - since.value <= SUSTAINED_FAILURE {
        return Ok(());
      }
      r := Err(if last.Some? then last.value else "");
    }
  }
}
