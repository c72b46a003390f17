/** The refresher's pass over every agent it lists, with what garam and the API server answer given. */
module Refresher {
  import opened Options
  import opened Domain
  import opened CredentialSecret

  datatype Failure = NotHeld | EpochSuperseded | EpochUnreadable | OtherFailure

  const FAILED_WAIT: nat := 30
  const REFUSED_WAIT: nat := 300

  /** An agent whose tokens are kept, or why what says when they are due could not be read. */
  datatype Holder = Holder(agent: GRN, version: CredentialSecret.Version, due: Time, failure: Option<Failure>)

  /** The clock when the agent's turn comes, and what each call would answer. */
  datatype Answers = Answers(
    now: Time, garam: Result<Token, Failure>, control: Result<Token, Failure>, write: Result<(), Failure>)

  datatype Kept = Kept(waiting: map<GRN, Time>, unwritten: map<GRN, Held>)

  function Pause(f: Failure): nat {
    if f == OtherFailure then FAILED_WAIT else REFUSED_WAIT
  }

  function HeldOf(k: Kept, agent: GRN): Option<Held> {
    if agent in k.unwritten then Some(k.unwritten[agent]) else None
  }

  /** One agent: what is held is minted of what is missing, remembered after each mint, written, and
      forgotten once written. */
  function RefreshOne(k: Kept, h: Holder, a: Answers): (Kept, Result<(), Failure>) {
    var held := Begin(HeldOf(k, h.agent), h.version, a.now);
    if held.garam.None? && a.garam.Err? then (k, Err(a.garam.error))
    else
      var one := if held.garam.None? then held.(garam := Some(a.garam.value)) else held;
      var k1 := if held.garam.None? then k.(unwritten := k.unwritten[h.agent := one]) else k;
      if one.control.None? && a.control.Err? then (k1, Err(a.control.error))
      else
        var two := if one.control.None? then one.(control := Some(a.control.value)) else one;
        var k2 := if one.control.None? then k1.(unwritten := k1.unwritten[h.agent := two]) else k1;
        if a.write.Err? then (k2, Err(a.write.error))
        else (k2.(unwritten := k2.unwritten - {h.agent}), Ok(()))
  }

  /** One turn: skipped while not due or waiting; a failure waits, and a success waits for nothing. */
  function Turn(k: Kept, h: Holder, a: Answers): Kept {
    if (h.failure.None? && a.now < h.due) || (h.agent in k.waiting && a.now < k.waiting[h.agent]) then k
    else
      var (next, result) := if h.failure.Some? then (k, Err(h.failure.value)) else RefreshOne(k, h, a);
      match result
      case Err(f) => next.(waiting := next.waiting[h.agent := a.now + Pause(f)])
      case Ok(_) => next.(waiting := next.waiting - {h.agent})
  }

  function Turns(k: Kept, holders: seq<Holder>, answers: seq<Answers>): Kept
    requires |holders| == |answers|
  {
    if holders == [] then k
    else Turn(Turns(k, holders[..|holders| - 1], answers[..|answers| - 1]), holders[|holders| - 1], answers[|answers| - 1])
  }

  function Listed(holders: seq<Holder>): set<GRN> {
    set h | h in holders :: h.agent
  }

  /** A pass: every holder's turn, and then what is kept of agents no longer listed is dropped. */
  function Pass(k: Kept, holders: seq<Holder>, answers: seq<Answers>): Kept
    requires |holders| == |answers|
  {
    var after := Turns(k, holders, answers);
    Kept(after.waiting - (after.waiting.Keys - Listed(holders)), after.unwritten - (after.unwritten.Keys - Listed(holders)))
  }

  class Refresher {
    var waiting: map<GRN, Time>
    var unwritten: map<GRN, Held>

    constructor ()
      ensures Snap() == Kept(map[], map[])
    {
      waiting, unwritten := map[], map[];
    }

    ghost function Snap(): Kept
      reads this
    {
      Kept(waiting, unwritten)
    }

    method RefreshAgent(h: Holder, a: Answers) returns (r: Result<(), Failure>)
      modifies this
      ensures (Snap(), r) == RefreshOne(old(Snap()), h, a)
    {
      var held := Held(h.version, a.now, None, None);
      if h.agent in unwritten && unwritten[h.agent].version == h.version && unwritten[h.agent].garam.Some?
         && a.now < unwritten[h.agent].garam.value.expiresAt {
        held := unwritten[h.agent];
      }
      if held.garam.None? {
        if a.garam.Err? {
          return Err(a.garam.error);
        }
        held := held.(garam := Some(a.garam.value));
        unwritten := unwritten[h.agent := held];
      }
      if held.control.None? {
        if a.control.Err? {
          return Err(a.control.error);
        }
        held := held.(control := Some(a.control.value));
        unwritten := unwritten[h.agent := held];
      }
      if a.write.Err? {
        return Err(a.write.error);
      }
      unwritten := unwritten - {h.agent};
      r := Ok(());
    }

    method TakeTurn(h: Holder, a: Answers)
      modifies this
      ensures Snap() == Turn(old(Snap()), h, a)
    {
      if (h.failure.None? && a.now < h.due) || (h.agent in waiting && a.now < waiting[h.agent]) {
        return;
      }
      var r: Result<(), Failure>;
      if h.failure.Some? {
        r := Err(h.failure.value);
      } else {
        r := RefreshAgent(h, a);
      }
      match r {
        case Err(f) => waiting := waiting[h.agent := a.now + Pause(f)];
        case Ok(_) => waiting := waiting - {h.agent};
      }
    }

    method Refresh(holders: seq<Holder>, answers: seq<Answers>)
      requires |holders| == |answers|
      modifies this
      ensures Snap() == Pass(old(Snap()), holders, answers)
    {
      var listed: set<GRN> := {};
      for i := 0 to |holders|
        invariant listed == Listed(holders[..i])
        invariant Snap() == Turns(old(Snap()), holders[..i], answers[..i])
      {
        var h, a := holders[i], answers[i];
        assert holders[..i + 1][..i] == holders[..i] && answers[..i + 1][..i] == answers[..i];
        assert holders[..i + 1] == holders[..i] + [h];
        listed := listed + {h.agent};
        TakeTurn(h, a);
      }
      assert holders[..|holders|] == holders && answers[..|answers|] == answers;
      waiting := waiting - (waiting.Keys - listed);
      unwritten := unwritten - (unwritten.Keys - listed);
    }
  }

  // ---- What a pass keeps ----

  lemma {:induction false} TurnsLeave(k: Kept, holders: seq<Holder>, answers: seq<Answers>, agent: GRN)
    requires |holders| == |answers| && agent !in Listed(holders)
    ensures var after := Turns(k, holders, answers);
            && HeldOf(after, agent) == HeldOf(k, agent)
            && (agent in after.waiting <==> agent in k.waiting) && (agent in k.waiting ==> after.waiting[agent] == k.waiting[agent])
  {
    if holders != [] {
      assert holders[|holders| - 1] in holders;
      assert forall h | h in holders[..|holders| - 1] :: h in holders;
      TurnsLeave(k, holders[..|holders| - 1], answers[..|answers| - 1], agent);
      TurnLeaves(Turns(k, holders[..|holders| - 1], answers[..|answers| - 1]), holders[|holders| - 1], answers[|answers| - 1], agent);
    }
  }

  /** An agent's turn is its own: whatever garam answers for the others, a pass that lists an agent once
      leaves of it what its own turn does, and one that does not list it leaves nothing. */
  lemma PassIsPerAgent(k: Kept, holders: seq<Holder>, answers: seq<Answers>, i: nat)
    requires |holders| == |answers| && i < |holders|
    requires forall j | 0 <= j < |holders| && j != i :: holders[j].agent != holders[i].agent
    ensures var after, agent := Pass(k, holders, answers), holders[i].agent;
            && HeldOf(after, agent) == HeldOf(Turn(k, holders[i], answers[i]), agent)
            && (agent in after.waiting <==> agent in Turn(k, holders[i], answers[i]).waiting)
            && (agent in after.waiting ==> after.waiting[agent] == Turn(k, holders[i], answers[i]).waiting[agent])
  {
    assert holders[i] in holders;
    TurnAmong(k, holders, answers, i);
  }

  lemma TurnIsLocal(k: Kept, l: Kept, h: Holder, a: Answers)
    requires HeldOf(k, h.agent) == HeldOf(l, h.agent)
    requires h.agent in k.waiting <==> h.agent in l.waiting
    requires h.agent in k.waiting ==> k.waiting[h.agent] == l.waiting[h.agent]
    ensures var x, y := Turn(k, h, a), Turn(l, h, a);
            && HeldOf(x, h.agent) == HeldOf(y, h.agent)
            && (h.agent in x.waiting <==> h.agent in y.waiting)
            && (h.agent in x.waiting ==> x.waiting[h.agent] == y.waiting[h.agent])
  {
  }

  lemma TurnLeaves(k: Kept, h: Holder, a: Answers, agent: GRN)
    requires agent != h.agent
    ensures var x := Turn(k, h, a);
            && HeldOf(x, agent) == HeldOf(k, agent)
            && (agent in x.waiting <==> agent in k.waiting) && (agent in k.waiting ==> x.waiting[agent] == k.waiting[agent])
  {
  }

  lemma {:induction false} TurnAmong(k: Kept, holders: seq<Holder>, answers: seq<Answers>, i: nat)
    requires |holders| == |answers| && i < |holders|
    requires forall j | 0 <= j < |holders| && j != i :: holders[j].agent != holders[i].agent
    ensures var after, agent := Turns(k, holders, answers), holders[i].agent;
            && HeldOf(after, agent) == HeldOf(Turn(k, holders[i], answers[i]), agent)
            && (agent in after.waiting <==> agent in Turn(k, holders[i], answers[i]).waiting)
            && (agent in after.waiting ==> after.waiting[agent] == Turn(k, holders[i], answers[i]).waiting[agent])
    decreases |holders|
  {
    var n := |holders| - 1;
    var before := Turns(k, holders[..n], answers[..n]);
    if i == n {
      assert holders[i].agent !in Listed(holders[..n]);
      TurnsLeave(k, holders[..n], answers[..n], holders[i].agent);
      TurnIsLocal(before, k, holders[i], answers[i]);
    } else {
      TurnAmong(k, holders[..n], answers[..n], i);
      TurnLeaves(before, holders[n], answers[n], holders[i].agent);
    }
  }

  /** A retry of tokens minted against the version still read, while garam's lives, asks garam for no
      token it already has: it writes what it held, whatever garam would answer now. */
  lemma RetryMintsNothing(k: Kept, h: Holder, a: Answers, b: Answers)
    requires HeldOf(k, h.agent).Some? && HeldOf(k, h.agent).value.version == h.version
    requires HeldOf(k, h.agent).value.garam.Some? && HeldOf(k, h.agent).value.control.Some?
    requires a.now < HeldOf(k, h.agent).value.garam.value.expiresAt && b == a.(garam := b.garam, control := b.control)
    ensures RefreshOne(k, h, a) == RefreshOne(k, h, b)
    ensures a.write.Err? ==> RefreshOne(k, h, a).0 == k
  {
  }
}
