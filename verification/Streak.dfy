/**
  The run of failures a token source is in, kept in three fields, against everything it ever observed.
 */
module Streak {
  import opened Options

  type Time = int

  /** What a source observes. A call answered 5xx, or not at all, says nothing of the token and is no
      event. */
  datatype Event =
    | ExchangeFailed(at: Time, error: string)
    | ExchangeAnswered
    | CallRefused(at: Time)               // answered 401
    | CallAnswered                        // answered otherwise

  datatype Cause = NoCause | ByExchange | ByCall

  const CALL_REFUSED := "a call presenting this operator's token was answered 401"
  const SUSTAINED_FAILURE: int := 3600 * 1_000_000_000

  // ---- The whole history ----

  predicate IsFailure(e: Event) {
    e.ExchangeFailed? || e.CallRefused?
  }

  function ErrorOf(e: Event): string
    requires IsFailure(e)
  {
    if e.CallRefused? then CALL_REFUSED else e.error
  }

  /** A call was refused, and none answered since. */
  ghost predicate RefusedBefore(history: seq<Event>, i: nat)
    requires i <= |history|
  {
    exists j | 0 <= j < i :: history[j].CallRefused? && NoneAnswered(history, j, i)
  }

  ghost predicate NoneAnswered(history: seq<Event>, j: int, i: nat)
    requires 0 <= j < i <= |history|
  {
    forall k | j < k < i :: history[k] != CallAnswered
  }

  /** A call answered ends any run; an exchange answered ends one only where no call was refused in it. */
  ghost predicate EndsRun(history: seq<Event>, i: nat)
    requires i < |history|
  {
    history[i] == CallAnswered || (history[i] == ExchangeAnswered && !RefusedBefore(history, i))
  }

  /** A failure no later event ended. */
  ghost predicate OpenFailure(history: seq<Event>, i: nat)
    requires i < |history|
  {
    IsFailure(history[i]) && forall k | i < k < |history| :: !EndsRun(history, k)
  }

  /** What the three fields say of a history: the first and the last failure of the open run, and
      whether a call was refused in it. */
  ghost predicate Describes(history: seq<Event>, s: Streak) {
    && (s.since.None? <==> forall i | 0 <= i < |history| :: !OpenFailure(history, i))
    && (s.since.Some? ==> exists i | 0 <= i < |history| :: FirstOpen(history, i) && s.since.value == history[i].at)
    && (s.last.Some? <==> s.since.Some?)
    && (s.last.Some? ==> exists i | 0 <= i < |history| :: LastOpen(history, i) && s.last.value == ErrorOf(history[i]))
    && (s.cause == ByCall <==> exists i | 0 <= i < |history| :: OpenFailure(history, i) && history[i].CallRefused?)
    && (s.cause == NoCause <==> s.since.None?)
  }

  ghost predicate FirstOpen(history: seq<Event>, i: nat)
    requires i < |history|
  {
    OpenFailure(history, i) && forall j | 0 <= j < i :: !OpenFailure(history, j)
  }

  ghost predicate LastOpen(history: seq<Event>, i: nat)
    requires i < |history|
  {
    OpenFailure(history, i) && forall j | i < j < |history| :: !OpenFailure(history, j)
  }

  // ---- The fields ----

  datatype Streak = Fields(since: Option<Time>, cause: Cause, last: Option<string>)

  const QUIET := Fields(None, NoCause, None)

  function Rank(c: Cause): nat {
    match c
    case NoCause => 0
    case ByExchange => 1
    case ByCall => 2
  }

  function Fail(s: Streak, now: Time, c: Cause, error: string): Streak {
    Fields(if s.since.None? then Some(now) else s.since, if Rank(s.cause) < Rank(c) then c else s.cause, Some(error))
  }

  function End(s: Streak, c: Cause): Streak {
    if Rank(s.cause) <= Rank(c) then QUIET else s
  }

  function Observe(s: Streak, e: Event): Streak {
    match e
    case ExchangeFailed(at, error) => Fail(s, at, ByExchange, error)
    case ExchangeAnswered => End(s, ByExchange)
    case CallRefused(at) => Fail(s, at, ByCall, CALL_REFUSED)
    case CallAnswered => End(s, ByCall)
  }

  function Fold(history: seq<Event>): Streak {
    if history == [] then QUIET else Observe(Fold(history[..|history| - 1]), history[|history| - 1])
  }

  // ---- The fields say what the history does ----

  lemma EndsStays(history: seq<Event>, e: Event)
    ensures forall i | 0 <= i < |history| :: EndsRun(history + [e], i) <==> EndsRun(history, i)
  {
    var next := history + [e];
    forall i | 0 <= i < |history|
      ensures EndsRun(next, i) <==> EndsRun(history, i)
    {
      forall j | 0 <= j < i
        ensures NoneAnswered(next, j, i) <==> NoneAnswered(history, j, i)
      {
        assert forall k | j < k < i :: next[k] == history[k];
      }
      assert forall j | 0 <= j < i :: next[j] == history[j];
    }
  }

  lemma OpenAfter(history: seq<Event>, e: Event)
    ensures var next := history + [e];
            && (forall i | 0 <= i < |history| :: OpenFailure(next, i) <==> OpenFailure(history, i) && !EndsRun(next, |history|))
            && (OpenFailure(next, |history|) <==> IsFailure(e))
  {
    var next := history + [e];
    EndsStays(history, e);
    forall i | 0 <= i < |history|
      ensures OpenFailure(next, i) <==> OpenFailure(history, i) && !EndsRun(next, |history|)
    {
      assert next[i] == history[i];
      assert forall k | i < k < |history| :: EndsRun(next, k) <==> EndsRun(history, k);
    }
  }

  /** A call was refused, and none answered since, exactly when the open run holds a refused call: only a
      call answered ends a run that holds one. */
  lemma RefusedIsOpen(history: seq<Event>)
    ensures RefusedBefore(history, |history|) <==> exists i | 0 <= i < |history| :: OpenFailure(history, i) && history[i].CallRefused?
  {
    forall i | 0 <= i < |history| && history[i].CallRefused?
      ensures NoneAnswered(history, i, |history|) <==> OpenFailure(history, i)
    {
      if NoneAnswered(history, i, |history|) {
        forall k | i < k < |history|
          ensures !EndsRun(history, k)
        {
          assert NoneAnswered(history, i, k);
        }
      } else {
        var k :| i < k < |history| && history[k] == CallAnswered;
        assert EndsRun(history, k);
      }
    }
  }

  lemma EndsHere(history: seq<Event>, e: Event, s: Streak)
    requires Describes(history, s)
    ensures EndsRun(history + [e], |history|) <==> e == CallAnswered || (e == ExchangeAnswered && s.cause != ByCall)
  {
    var next := history + [e];
    RefusedIsOpen(history);
    forall j | 0 <= j < |history|
      ensures NoneAnswered(next, j, |history|) <==> NoneAnswered(history, j, |history|)
    {
      assert forall k | j < k < |history| :: next[k] == history[k];
    }
    assert forall j | 0 <= j < |history| :: next[j] == history[j];
  }

  lemma EndedDescribes(history: seq<Event>, e: Event, s: Streak)
    requires Describes(history, s) && !IsFailure(e) && EndsRun(history + [e], |history|)
    ensures Describes(history + [e], QUIET)
  {
    OpenAfter(history, e);
  }

  lemma UnendedDescribes(history: seq<Event>, e: Event, s: Streak)
    requires Describes(history, s) && !IsFailure(e) && !EndsRun(history + [e], |history|)
    ensures Describes(history + [e], s)
  {
    var next := history + [e];
    OpenAfter(history, e);
    assert forall i | 0 <= i < |history| :: next[i] == history[i];
    if s.since.Some? {
      var i :| 0 <= i < |history| && FirstOpen(history, i) && s.since.value == history[i].at;
      assert FirstOpen(next, i);
      var j :| 0 <= j < |history| && LastOpen(history, j) && s.last.value == ErrorOf(history[j]);
      assert LastOpen(next, j);
    }
  }

  lemma FailedDescribes(history: seq<Event>, e: Event, s: Streak)
    requires Describes(history, s) && IsFailure(e)
    ensures Describes(history + [e], Fail(s, e.at, if e.CallRefused? then ByCall else ByExchange, ErrorOf(e)))
  {
    var next := history + [e];
    OpenAfter(history, e);
    assert forall i | 0 <= i < |history| :: next[i] == history[i];
    assert LastOpen(next, |history|);
    if s.since.Some? {
      var i :| 0 <= i < |history| && FirstOpen(history, i) && s.since.value == history[i].at;
      assert FirstOpen(next, i);
    } else {
      assert FirstOpen(next, |history|);
    }
  }

  lemma StepDescribes(before: seq<Event>, e: Event, s: Streak)
    requires Describes(before, s)
    ensures Describes(before + [e], Observe(s, e))
  {
    EndsHere(before, e, s);
    if IsFailure(e) {
      FailedDescribes(before, e, s);
    } else if EndsRun(before + [e], |before|) {
      EndedDescribes(before, e, s);
    } else {
      UnendedDescribes(before, e, s);
    }
  }

  lemma Rebuilt(history: seq<Event>, before: seq<Event>, e: Event, s: Streak)
    requires |history| > 0 && before == history[..|history| - 1] && e == history[|history| - 1]
    requires Describes(before + [e], s)
    ensures Describes(history, s)
  {
    assert history == before + [e];
  }

  /** For every history: the fields are the run that is open, from its first failure on. */
  lemma {:induction false} FieldsDescribeHistory(history: seq<Event>)
    ensures Describes(history, Fold(history))
  {
    if history != [] {
      var before, e := history[..|history| - 1], history[|history| - 1];
      FieldsDescribeHistory(before);
      StepDescribes(before, e, Fold(before));
      Rebuilt(history, before, e, Observe(Fold(before), e));
    }
  }

  function Check(s: Streak, now: Time): Result<(), string> {
    if s.since.None? || now - s.since.value <= SUSTAINED_FAILURE then Ok(())
    else Err(if s.last.Some? then s.last.value else "")
  }

  /** The check fails exactly while a run is open whose first failure is more than an hour old. */
  lemma CheckFailsOnLongRun(history: seq<Event>, now: Time)
    ensures Check(Fold(history), now).Err? <==>
              exists i | 0 <= i < |history| :: FirstOpen(history, i) && now - history[i].at > 3_600_000_000_000
    ensures Check(Fold(history), now).Err? ==>
              exists i | 0 <= i < |history| :: LastOpen(history, i) && Check(Fold(history), now).error == ErrorOf(history[i])
  {
    FieldsDescribeHistory(history);
    forall i, j | 0 <= i < |history| && 0 <= j < |history| && FirstOpen(history, i) && FirstOpen(history, j)
      ensures i == j
    {
    }
  }
}
