/** When a token source exchanges and what it answers, in seconds and in what garam answered it. */
module TokenMeaning {
  import opened Options
  import opened Streak
  import opened MachineToken

  // ---- After a failed exchange ----

  ghost predicate LastFailed(attempts: seq<Attempt>, at: Time, retryAfter: Option<int>) {
    && attempts != []
    && var last := attempts[|attempts| - 1];
    && last.at == at && last.answer.Failed? && last.answer.retryAfter == retryAfter
  }

  /** The last k exchanges failed, and the one before them did not. */
  ghost predicate FailedInARow(attempts: seq<Attempt>, k: nat) {
    && k <= |attempts| && (forall i | |attempts| - k <= i < |attempts| :: attempts[i].answer.Failed?)
    && (k < |attempts| ==> attempts[|attempts| - k - 1].answer.Answered?)
  }

  lemma {:induction false} TrailingCounts(attempts: seq<Attempt>, k: nat)
    requires FailedInARow(attempts, k)
    ensures Trailing(attempts) == k
    decreases k
  {
    if k > 0 {
      var before := attempts[..|attempts| - 1];
      assert FailedInARow(before, k - 1) by {
        assert forall i | 0 <= i < |before| :: before[i] == attempts[i];
      }
      TrailingCounts(before, k - 1);
    }
  }

  lemma SendsAtUntil(s: State, attempts: seq<Attempt>, was: Time, now: Time, at: Time, retryAfter: Option<int>)
    requires SourceOk(s, attempts, was) && was <= now && LastFailed(attempts, at, retryAfter)
    ensures Trailing(attempts) >= 1
    ensures Sends(s, now) <==> now >= at + Wait(Trailing(attempts), retryAfter)
  {
    assert attempts[..|attempts| - 1] + [attempts[|attempts| - 1]] == attempts;
  }

  /** After an exchange garam answered with a Retry-After of n seconds, the next is sent at the first call n
      seconds later or more, and at none before. */
  lemma WaitsAsAsked(s: State, attempts: seq<Attempt>, was: Time, now: Time, at: Time, n: int)
    requires SourceOk(s, attempts, was) && was <= now && LastFailed(attempts, at, Some(n))
    requires 0 < n <= 9_223_372_036
    ensures Sends(s, now) <==> now >= at + n * 1_000_000_000
  {
    SendsAtUntil(s, attempts, was, now, at, Some(n));
  }

  /** With no Retry-After, or none above 0, the next is sent 2^(k-1) seconds after the k-th failure in a row,
      and at most five minutes after. */
  lemma WaitsDoubling(s: State, attempts: seq<Attempt>, was: Time, now: Time, at: Time, retryAfter: Option<int>, k: nat)
    requires SourceOk(s, attempts, was) && was <= now && LastFailed(attempts, at, retryAfter)
    requires retryAfter.None? || retryAfter.value <= 0
    requires k >= 1 && FailedInARow(attempts, k)
    ensures Sends(s, now) <==>
              now >= at + (if Pow2(k - 1) * 1_000_000_000 < 300_000_000_000 then Pow2(k - 1) * 1_000_000_000 else 300_000_000_000)
  {
    TrailingCounts(attempts, k);
    SendsAtUntil(s, attempts, was, now, at, retryAfter);
    BackoffDoubles(k);
  }

  /** A Retry-After too long for 64 bits of nanoseconds is cut to what they keep of it, where that is above 0,
      and waits as if there were none where it is not. */
  lemma WaitsWrapped(s: State, attempts: seq<Attempt>, was: Time, now: Time, at: Time, n: int, k: nat)
    requires SourceOk(s, attempts, was) && was <= now && LastFailed(attempts, at, Some(n)) && n > 9_223_372_036
    requires k >= 1 && FailedInARow(attempts, k)
    ensures var kept := n * 1_000_000_000 % 0x1_0000_0000_0000_0000;
            Sends(s, now) <==>
              now >= at + (if 0 < kept < 0x8000_0000_0000_0000 then kept
                           else if Pow2(k - 1) * 1_000_000_000 < 300_000_000_000 then Pow2(k - 1) * 1_000_000_000 else 300_000_000_000)
  {
    TrailingCounts(attempts, k);
    SendsAtUntil(s, attempts, was, now, at, Some(n));
    WrapIs(n * SECOND);
    BackoffDoubles(k);
  }

  // ---- After an exchange that was answered ----

  ghost predicate LastAnswered(attempts: seq<Attempt>, i: nat) {
    i < |attempts| && attempts[i].answer.Answered? && forall j | i < j < |attempts| :: attempts[j].answer.Failed?
  }

  /** What is held is the token last answered, unless it was dropped, or none ever was. */
  lemma HoldsLastAnswered(s: State, attempts: seq<Attempt>, now: Time, i: nat)
    requires SourceOk(s, attempts, now) && LastAnswered(attempts, i) && s.token != ""
    ensures FromExchange(s, attempts, i)
  {
    var j :| 0 <= j < |attempts| && FromExchange(s, attempts, j);
    assert i == j;
  }

  /** A token answered for so many seconds is presented with its client id, and no exchange sent, through the
      first two thirds of them; and the first call after them sends one. */
  lemma HoldsTwoThirds(s: State, attempts: seq<Attempt>, was: Time, now: Time, i: nat, a: Answer)
    requires SourceOk(s, attempts, was) && was <= now && LastAnswered(attempts, i) && i == |attempts| - 1 && s.token != ""
    requires attempts[i].answer.expiresIn <= 4_611_686_018
    ensures var t := attempts[i].answer;
            && (Sends(s, now) <==> now >= attempts[i].at + 2 * t.expiresIn * 1_000_000_000 / 3)
            && (!Sends(s, now) ==> Present(s, now, a) == (s, Ok(Presented(t.token, t.clientID))))
  {
    HoldsLastAnswered(s, attempts, was, i);
  }

  /** Where no exchange may be sent, or the one sent fails, the token held is presented to the end of its
      seconds; and after them, the last failure is answered. */
  lemma PresentsToTheEnd(s: State, attempts: seq<Attempt>, was: Time, now: Time, i: nat, a: Answer)
    requires SourceOk(s, attempts, was) && was <= now && LastAnswered(attempts, i) && s.token != ""
    requires attempts[i].answer.expiresIn <= 4_611_686_018
    requires now >= attempts[i].at + 2 * attempts[i].answer.expiresIn * 1_000_000_000 / 3 && (Sends(s, now) ==> a.Failed?)
    ensures var t := attempts[i].answer;
            Present(s, now, a).1 ==
              if now < attempts[i].at + t.expiresIn * 1_000_000_000 then Ok(Presented(t.token, t.clientID))
              else Err(if Sends(s, now) then a.error else attempts[|attempts| - 1].answer.error)
  {
    HoldsLastAnswered(s, attempts, was, i);
  }

  /** With no token held, a call exchanges unless a failure's wait is on, and is answered the new token, or the
      failure. */
  lemma PresentsWithoutToken(s: State, attempts: seq<Attempt>, was: Time, now: Time, a: Answer)
    requires SourceOk(s, attempts, was) && was <= now && s.token == ""
    ensures attempts == [] || attempts[|attempts| - 1].answer.Answered? ==> Sends(s, now)
    ensures Present(s, now, a).1 ==
              if Sends(s, now) then if a.Answered? then Ok(Presented(a.token, a.clientID)) else Err(a.error)
              else Err(attempts[|attempts| - 1].answer.error)
  {
  }

  /** Dropping the token held is forgetting it alone; dropping another changes nothing. */
  lemma DropsWhatIsHeld(s: State, token: string)
    ensures token == s.token ==> Invalidated(s, token) == s.(token := "")
    ensures token != s.token ==> Invalidated(s, token) == s
  {
  }
}
