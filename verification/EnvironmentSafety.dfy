/** Every step of the environment keeps the invariants. */
module EnvironmentSafety {
  import opened Options
  import opened Cluster
  import opened Invariants
  import opened Frames

  // ---- The Pod ----

  lemma KubeletKeepsInv(w: World, w': World)
    requires Inv(w) && KubeletStep(w, w')
    ensures Inv(w')
  {
    KubeletKeepsMoves(w, w');
    PodContentKeepsCopies(w, w');
    KubeletKeepsSealed(w, w');
    KubeletKeepsFenced(w, w');
  }

  lemma KubeletKeepsMoves(w: World, w': World)
    requires Links(w.claims) && NamedLast(w.name, w.agent, w.claims) && Mounted(w.name, w.sts, w.claims)
    requires Recordings(w.name, w.claims) && KubeletStep(w, w')
    ensures SameMoves(w.claims, w'.claims) && Recordings(w.name, w'.claims)
    ensures forall t :: IsMove(w'.claims, t) <==> IsMove(w.claims, t)
    ensures Links(w'.claims) && NamedLast(w'.name, w'.agent, w'.claims) && Mounted(w'.name, w'.sts, w'.claims)
  {
    assert SameMoves(w.claims, w'.claims);
    SameMovesKeepLinks(w.name, w.agent, w.sts, w.claims, w'.claims);
    SameWritersKeepRecords(w.name, w.claims, w'.claims);
  }

  lemma KubeletKeepsFenced(w: World, w': World)
    requires Inv(w) && KubeletStep(w, w')
    ensures Fenced(w'.agent, w'.sts, w'.pod, w'.nodes, w'.live)
  {
    assert Writers(w'.pod.value) == Writers(w.pod.value);
    if !w.pod.value.finalizer {
      assert LiveOf(w', w.pod.value.uid) == {};
    }
  }

  /** What a Pod writes is on the claim it was created on, and so on no move's untouched source, and
      on no target that was not linked. */
  lemma PodContentKeepsCopies(w: World, w': World)
    requires Inv(w) && KubeletStep(w, w') && SameMoves(w.claims, w'.claims)
    ensures Copies(w.name, w'.claims, w.jobs, w.copiers)
  {
    var p := w.pod.value;
    forall t | IsMove(w.claims, t)
      ensures Untouched(w'.claims, w.claims[t].move.value) ==>
                Untouched(w.claims, w.claims[t].move.value) && w.claims[t].move.value.source != p.claim
      ensures w.claims[t].move.value.linkedAt.None? ==> t != p.claim
    {
      assert Recorded(w.name, w.claims, t);
    }
    SameContentKeepsCopies(w, w'.claims);
  }

  lemma KubeletKeepsSealed(w: World, w': World)
    requires Inv(w) && KubeletStep(w, w')
    ensures Sealed(w'.pod, w'.claims)
  {
    assert Writers(w'.pod.value) == Writers(w.pod.value);
    forall c | c in w'.claims
      ensures SealedClaim(w'.pod, w'.claims[c])
    {
      assert SealedClaim(w.pod, w.claims[c]);
    }
  }

  lemma PodGoneKeepsInv(w: World, w': World)
    requires Inv(w) && PodGoneStep(w, w')
    ensures Inv(w')
  {
    assert Sealed(w'.pod, w'.claims) by {
      forall c | c in w'.claims
        ensures SealedClaim(w'.pod, w'.claims[c])
      {
        assert SealedClaim(w.pod, w.claims[c]);
      }
    }
  }

  lemma PodCreatedKeepsInv(w: World, w': World)
    requires Inv(w) && PodCreatedStep(w, w')
    ensures Inv(w')
  {
    PodCreatedKeepsMoves(w, w');
    PodCreatedKeepsRecords(w, w');
    PodCreatedKeepsSealed(w, w');
    PodCreatedKeepsCopies(w, w');
  }

  lemma PodCreatedKeepsCopies(w: World, w': World)
    requires Recordings(w.name, w.claims) && Copies(w.name, w.claims, w.jobs, w.copiers)
    requires PodCreatedStep(w, w') && SameMoves(w.claims, w'.claims)
    requires forall t | IsMove(w.claims, t) && Untouched(w'.claims, w.claims[t].move.value) ::
               Untouched(w.claims, w.claims[t].move.value)
    ensures Copies(w'.name, w'.claims, w'.jobs, w'.copiers)
  {
    SameContentKeepsCopies(w, w'.claims);
  }

  lemma PodCreatedKeepsMoves(w: World, w': World)
    requires Links(w.claims) && NamedLast(w.name, w.agent, w.claims) && Mounted(w.name, w.sts, w.claims)
    requires PodCreatedStep(w, w')
    ensures SameMoves(w.claims, w'.claims) && (forall t :: IsMove(w'.claims, t) <==> IsMove(w.claims, t))
    ensures Links(w'.claims) && NamedLast(w'.name, w'.agent, w'.claims) && Mounted(w'.name, w'.sts, w'.claims)
  {
    assert SameMoves(w.claims, w'.claims);
    SameMovesKeepLinks(w.name, w.agent, w.sts, w.claims, w'.claims);
  }

  lemma PodCreatedKeepsRecords(w: World, w': World)
    requires Inv(w) && PodCreatedStep(w, w') && SameMoves(w.claims, w'.claims)
    ensures Recordings(w.name, w'.claims) && NoMoveBesidePod(w'.pod, w'.claims)
    ensures forall t | IsMove(w.claims, t) && Untouched(w'.claims, w.claims[t].move.value) ::
              && Untouched(w.claims, w.claims[t].move.value) && w.claims[t].move.value.source != w'.pod.value.claim
  {
    assert w.sts.value.mount.Some? ==> MayMount(w.claims, w'.pod.value.claim);
    forall t | IsMove(w'.claims, t)
      ensures Recorded(w.name, w'.claims, t)
      ensures w'.claims[t].move.value.born < w'.pod.value.uid
      ensures Untouched(w'.claims, w.claims[t].move.value) ==>
                && Untouched(w.claims, w.claims[t].move.value) && w.claims[t].move.value.source != w'.pod.value.claim
    {
      assert Recorded(w.name, w.claims, t);
      assert ClaimClocked(w.claims[t], w.clock);
    }
  }

  lemma PodCreatedKeepsSealed(w: World, w': World)
    requires Sealed(w.pod, w.claims) && Clocked(w) && PodCreatedStep(w, w')
    ensures Sealed(w'.pod, w'.claims) && Clocked(w')
  {
    forall c | c in w'.claims
      ensures SealedClaim(w'.pod, w'.claims[c]) && ClaimClocked(w'.claims[c], w'.clock)
      ensures w'.claims[c].mountedBy == Some(w'.pod.value.uid) ==> c == w'.pod.value.claim
    {
      if c in w.claims {
        assert SealedClaim(w.pod, w.claims[c]) && ClaimClocked(w.claims[c], w.clock);
      }
    }
  }

  // ---- Jobs ----

  /** A copy writes only the target of a move not yet copied, which no Pod was created on. */
  lemma JobKeepsInv(w: World, w': World, id: Name)
    requires Inv(w) && JobStep(w, w', id)
    ensures Inv(w')
  {
    JobClaims(w, w', id);
    SameMovesKeepLinks(w.name, w.agent, w.sts, w.claims, w'.claims);
    SameWritersKeepRecords(w.name, w.claims, w'.claims);
    JobContent(w, w', id);
    JobKeepsCopies(w, w', id);
    SameClocks(w, w');
  }

  lemma JobClaims(w: World, w': World, id: Name)
    requires JobStep(w, w', id)
    ensures w'.claims.Keys == w.claims.Keys && SameMoves(w.claims, w'.claims)
    ensures forall c | c in w.claims :: w'.claims[c] == w.claims[c].(content := w'.claims[c].content)
  {
  }

  lemma SameClocks(w: World, w': World)
    requires Clocked(w) && w'.clock == w.clock && w'.live == w.live && w'.pod == w.pod
    requires w'.claims.Keys == w.claims.Keys
    requires forall c | c in w.claims :: w'.claims[c] == w.claims[c].(content := w'.claims[c].content)
    ensures Clocked(w')
  {
    assert forall c | c in w'.claims :: ClaimClocked(w.claims[c], w.clock) && ClaimClocked(w'.claims[c], w.clock);
  }

  lemma JobKeepsCopies(w: World, w': World, id: Name)
    requires JobStep(w, w', id) && SameMoves(w.claims, w'.claims)
    requires Recordings(w.name, w.claims) && Copies(w.name, w.claims, w.jobs, w.copiers)
    requires forall t | IsMove(w.claims, t) ::
               Untouched(w'.claims, w.claims[t].move.value) <==> Untouched(w.claims, w.claims[t].move.value)
    requires forall t | IsMove(w.claims, t) ::
              && w'.claims[w.claims[t].move.value.source].content == w.claims[w.claims[t].move.value.source].content
              && (w.claims[t].move.value.phase in {Copied, Verified} ==> w'.claims[t].content == w.claims[t].content)
    ensures Copies(w.name, w'.claims, w'.jobs, w'.copiers)
  {
    SameContentKeepsCopies(w, w'.claims);
    SameWritersKeepRecords(w.name, w.claims, w'.claims);
    JobEndKeepsCopies(w, w', id);
  }

  lemma JobContent(w: World, w': World, id: Name)
    requires Inv(w) && JobStep(w, w', id)
    ensures Sealed(w'.pod, w'.claims)
    ensures forall t | IsMove(w.claims, t) ::
              && w'.claims[w.claims[t].move.value.source].content == w.claims[w.claims[t].move.value.source].content
              && (w.claims[t].move.value.phase in {Copied, Verified} ==> w'.claims[t].content == w.claims[t].content)
  {
    var target := TargetClaim(w.name, id);
    if id in w.copiers {
      assert MoveOf(w.name, w.claims, id);
      assert CopyState(w.claims, target, w.jobs, w.copiers) && Recorded(w.name, w.claims, target);
      assert w.claims[target].mountedBy.None?;
    }
    forall t | IsMove(w.claims, t)
      ensures id in w.copiers ==> w.claims[t].move.value.source != target
    {
      assert Recorded(w.name, w.claims, t);
    }
    forall c | c in w'.claims
      ensures SealedClaim(w'.pod, w'.claims[c])
    {
      assert SealedClaim(w.pod, w.claims[c]);
    }
  }

  lemma JobEndKeepsCopies(w: World, w': World, id: Name)
    requires JobStep(w, w', id) && SameMoves(w.claims, w'.claims) && Recordings(w.name, w'.claims)
    requires Copies(w.name, w'.claims, w.jobs, w.copiers)
    ensures Copies(w.name, w'.claims, w'.jobs, w'.copiers)
  {
    forall t | IsMove(w'.claims, t)
      ensures CopyState(w'.claims, t, w'.jobs, w'.copiers)
    {
      assert CopyState(w'.claims, t, w.jobs, w.copiers) && Recorded(w.name, w'.claims, t);
    }
  }

  // ---- Everyone else ----

  lemma OtherKeepsInv(w: World, w': World)
    requires Inv(w) && OtherStep(w, w')
    ensures Inv(w')
  {
    if w' != w.(secret := None) {
      assert SameMoves(w.claims, w'.claims);
      SameMovesKeepLinks(w.name, w.agent, w.sts, w.claims, w'.claims);
      SameWritersKeepRecords(w.name, w.claims, w'.claims);
      OtherKeepsCopies(w, w');
      OtherKeepsSealed(w, w');
    }
  }

  lemma OtherKeepsCopies(w: World, w': World)
    requires w.claims.Keys <= w'.claims.Keys && SameMoves(w.claims, w'.claims)
    requires forall c | c in w.claims :: w'.claims[c] == w.claims[c]
    requires Recordings(w.name, w.claims) && Copies(w.name, w.claims, w.jobs, w.copiers)
    requires forall t | IsMove(w.claims, t) ::
               Untouched(w'.claims, w.claims[t].move.value) <==> Untouched(w.claims, w.claims[t].move.value)
    ensures Copies(w.name, w'.claims, w.jobs, w.copiers)
  {
    assert forall t | IsMove(w.claims, t) :: Recorded(w.name, w.claims, t);
    SameContentKeepsCopies(w, w'.claims);
  }

  lemma OtherKeepsSealed(w: World, w': World)
    requires Sealed(w.pod, w.claims) && Clocked(w) && OtherStep(w, w') && w' != w.(secret := None)
    ensures Sealed(w'.pod, w'.claims) && Clocked(w')
  {
    forall c | c in w'.claims
      ensures SealedClaim(w'.pod, w'.claims[c]) && ClaimClocked(w'.claims[c], w'.clock)
    {
      if c in w.claims {
        assert SealedClaim(w.pod, w.claims[c]) && ClaimClocked(w.claims[c], w.clock);
      }
    }
  }

  lemma UserKeepsInv(w: World, w': World)
    requires Inv(w) && UserStep(w, w')
    ensures Inv(w')
  {
  }

  lemma EnvironmentKeepsInv(w: World, w': World)
    requires Inv(w) && Environment(w, w')
    ensures Inv(w')
  {
    if KubeletStep(w, w') {
      KubeletKeepsInv(w, w');
    } else if PodGoneStep(w, w') {
      PodGoneKeepsInv(w, w');
    } else if PodCreatedStep(w, w') {
      PodCreatedKeepsInv(w, w');
    } else if exists id :: JobStep(w, w', id) {
      var id :| JobStep(w, w', id);
      JobKeepsInv(w, w', id);
    } else if UserStep(w, w') {
      UserKeepsInv(w, w');
    } else if OtherStep(w, w') {
      OtherKeepsInv(w, w');
    }
  }
}
