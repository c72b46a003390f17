/** What each group of invariants rests on: claims that differ in nothing it reads keep it. */
module Frames {
  import opened Options
  import opened Cluster
  import opened Invariants

  /** No claim's record of a move, or name for where the memory moved, differs; claims may be added. */
  ghost predicate SameMoves(claims: map<Name, Claim>, claims': map<Name, Claim>) {
    && claims.Keys <= claims'.Keys
    && (forall c | c in claims ::
          && claims'[c].uid == claims[c].uid && claims'[c].labelled == claims[c].labelled
          && claims'[c].move == claims[c].move && claims'[c].movedTo == claims[c].movedTo)
    && (forall c | c in claims' && c !in claims :: !Ours(claims'[c]) && claims'[c].movedTo.None?)
  }

  lemma SameMovesKeepLinks(name: Name, agent: Option<Agent>, sts: Option<StatefulSet>,
                           claims: map<Name, Claim>, claims': map<Name, Claim>)
    requires SameMoves(claims, claims')
    requires Links(claims) && NamedLast(name, agent, claims) && Mounted(name, sts, claims)
    ensures forall t :: IsMove(claims', t) <==> IsMove(claims, t)
    ensures Links(claims') && NamedLast(name, agent, claims') && Mounted(name, sts, claims')
  {
    forall c | c in claims' && claims'[c].movedTo.Some?
      ensures Named(claims', c)
    {
      assert Named(claims, c);
    }
    forall t | IsMove(claims', t)
      ensures StillNamed(claims', claims'[t].move.value, t)
    {
      assert StillNamed(claims, claims[t].move.value, t);
    }
    forall t, u | IsMove(claims', t) && IsMove(claims', u) && t != u
      ensures UndoneBefore(claims'[t].move.value, claims'[u].move.value)
    {
      assert UndoneBefore(claims[t].move.value, claims[u].move.value);
    }
  }

  /** Beside its move, a claim's last writer and last Pod are all a record of a move rests on. */
  lemma SameWritersKeepRecords(name: Name, claims: map<Name, Claim>, claims': map<Name, Claim>)
    requires SameMoves(claims, claims') && Recordings(name, claims)
    requires forall c | c in claims :: claims'[c].mountedBy == claims[c].mountedBy && claims'[c].lastWriter == claims[c].lastWriter
    ensures Recordings(name, claims')
    ensures forall t | IsMove(claims, t) :: Untouched(claims', claims[t].move.value) <==> Untouched(claims, claims[t].move.value)
  {
    forall t | IsMove(claims', t)
      ensures Recorded(name, claims', t)
    {
      assert Recorded(name, claims, t);
    }
    forall t | IsMove(claims, t)
      ensures Untouched(claims', claims[t].move.value) <==> Untouched(claims, claims[t].move.value)
    {
      assert Recorded(name, claims, t);
    }
  }

  /** Nothing the copies rest on differs, for a source no Pod was created on since. */
  lemma SameContentKeepsCopies(w: World, claims': map<Name, Claim>)
    requires SameMoves(w.claims, claims')
    requires Recordings(w.name, w.claims) && Copies(w.name, w.claims, w.jobs, w.copiers)
    requires forall t | IsMove(w.claims, t) && Untouched(claims', w.claims[t].move.value) ::
               && Untouched(w.claims, w.claims[t].move.value)
               && claims'[w.claims[t].move.value.source].content == w.claims[w.claims[t].move.value.source].content
    requires forall t | IsMove(w.claims, t) && w.claims[t].move.value.linkedAt.None?
               && w.claims[t].move.value.phase in {Copied, Verified} ::
               claims'[t].content == w.claims[t].content
    ensures Copies(w.name, claims', w.jobs, w.copiers)
  {
    assert forall t :: IsMove(claims', t) <==> IsMove(w.claims, t);
    forall t | IsMove(claims', t)
      ensures CopyState(claims', t, w.jobs, w.copiers)
    {
      assert Recorded(w.name, w.claims, t) && CopyState(w.claims, t, w.jobs, w.copiers);
    }
    forall k | k in w.jobs
      ensures MoveOf(w.name, claims', k.id)
    {
      assert MoveOf(w.name, w.claims, k.id);
    }
    forall id | id in w.copiers
      ensures MoveOf(w.name, claims', id)
    {
      assert MoveOf(w.name, w.claims, id);
    }
  }
}
