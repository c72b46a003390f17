/** What the fence's evidence means, and that its writes keep the invariants at every crash point. */
module FenceSafety {
  import opened Options
  import opened Cluster
  import opened Fence
  import opened Invariants
  import opened Frames

  /** Evidence is given exactly when every writer, read alone, counts as stopped; a writer that does
      was reported terminated with a container ID, or the kubelet made its Pod terminal. */
  lemma {:induction false} EvidenceNamesEveryWriter(p: Pod, node: Node, names: seq<Name>)
    ensures TerminatedWriters(p, node, names).Ok? <==> forall x | x in names :: ReadWriter(p, node, x).Ok?
    ensures TerminatedWriters(p, node, names).Ok? ==>
              forall x | x in names :: ReportedTerminated(p, x) || KubeletTerminal(p, node)
  {
    if names != [] {
      EvidenceNamesEveryWriter(p, node, names[..|names| - 1]);
      assert names == names[..|names| - 1] + [names[|names| - 1]];
    }
  }

  /** A Pod the fence finds evidence for has nothing that runs, or could run again. */
  lemma EvidenceMeansQuiet(w: World, p: Pod)
    requires w.pod == Some(p) && p.deleting && Truthful(w.nodes, p)
    requires ReadFence(w, p).Ok?
    ensures Quiet(p)
    ensures p.node.Some? ==> p.claim in w.claims
  {
    if p.node.Some? {
      EvidenceNamesEveryWriter(p, w.nodes[p.node.value], Writers(p));
    }
  }

  // ---- Each write ----

  lemma EvidenceKeepsInv(w: World, e: Evidence)
    requires Inv(w)
    ensures Inv(WithEvidence(w, e))
  {
  }

  lemma FinalizerKeepsInv(w: World, w': World)
    requires Inv(w) && w.agent.Some?
    requires w'.agent.Some? && w' == w.(agent := w'.agent) && w'.agent.value == w.agent.value.(fenced := w'.agent.value.fenced)
    requires w'.agent.value.fenced || (w.pod.None? && w.sts.None?)
    ensures Inv(w')
  {
  }

  lemma PlacementKeepsInv(w: World, previous: Option<(UID, Evidence)>)
    requires Inv(w)
    ensures Inv(WithPlacement(w, previous))
  {
    forall c | c in w.claims
      ensures ClaimClocked(w.claims[c], w.clock + 1)
    {
      assert ClaimClocked(w.claims[c], w.clock);
    }
  }

  /** The claim of the Pod that holds the name learns of it: running while it is not deleting, and
      stopped once nothing of it can run. */
  lemma LastWriterKeepsInv(w: World, writer: LastWriter)
    requires Inv(w) && w.pod.Some? && writer.podUID == w.pod.value.uid
    requires writer.state == WriterRunning ==> w.pod.value.finalizer
    requires writer.state == WriterStopped ==> Quiet(w.pod.value)
    ensures Inv(WithLastWriter(w, w.pod.value.claim, writer))
    ensures writer.state == WriterStopped ==>
              NamedStopped(WithLastWriter(w, w.pod.value.claim, writer).claims[w.pod.value.claim], w.pod.value.uid)
  {
    var claims' := WithLastWriter(w, w.pod.value.claim, writer).claims;
    LastWriterKeepsClaims(w, writer);
    LastWriterKeepsRecords(w, writer);
    LastWriterKeepsCopies(w, writer);
    SameMovesKeepLinks(w.name, w.agent, w.sts, w.claims, claims');
  }

  lemma LastWriterKeepsClaims(w: World, writer: LastWriter)
    requires Sealed(w.pod, w.claims) && Clocked(w) && w.pod.Some? && writer.podUID == w.pod.value.uid
    requires writer.state == WriterRunning ==> w.pod.value.finalizer
    requires writer.state == WriterStopped ==> Quiet(w.pod.value)
    ensures var w' := WithLastWriter(w, w.pod.value.claim, writer);
            SameMoves(w.claims, w'.claims) && Sealed(w'.pod, w'.claims) && Clocked(w')
  {
    var w' := WithLastWriter(w, w.pod.value.claim, writer);
    forall c | c in w'.claims
      ensures SealedClaim(w'.pod, w'.claims[c]) && ClaimClocked(w'.claims[c], w'.clock)
    {
      assert SealedClaim(w.pod, w.claims[c]) && ClaimClocked(w.claims[c], w.clock);
    }
  }

  lemma LastWriterKeepsRecords(w: World, writer: LastWriter)
    requires Recordings(w.name, w.claims) && NoMoveBesidePod(w.pod, w.claims) && Sealed(w.pod, w.claims) && w.pod.Some?
    ensures Recordings(w.name, WithLastWriter(w, w.pod.value.claim, writer).claims)
    ensures NoMoveBesidePod(w.pod, WithLastWriter(w, w.pod.value.claim, writer).claims)
  {
    var claims' := WithLastWriter(w, w.pod.value.claim, writer).claims;
    forall t | IsMove(claims', t)
      ensures Recorded(w.name, claims', t)
    {
      assert Recorded(w.name, w.claims, t);
    }
  }

  lemma LastWriterKeepsCopies(w: World, writer: LastWriter)
    requires Recordings(w.name, w.claims) && Copies(w.name, w.claims, w.jobs, w.copiers)
    requires w.pod.Some? && w.pod.value.claim in w.claims
    ensures Copies(w.name, WithLastWriter(w, w.pod.value.claim, writer).claims, w.jobs, w.copiers)
  {
    assert forall t | IsMove(w.claims, t) :: Recorded(w.name, w.claims, t);
    SameContentKeepsCopies(w, WithLastWriter(w, w.pod.value.claim, writer).claims);
  }

  lemma ReleasedPodKeepsInv(w: World)
    requires Inv(w) && w.pod.Some?
    requires NamedStopped(w.claims[w.pod.value.claim], w.pod.value.uid)
    ensures Inv(WithPod(w, w.pod.value.(finalizer := false)))
  {
    var w' := WithPod(w, w.pod.value.(finalizer := false));
    assert Writers(w'.pod.value) == Writers(w.pod.value);
    assert SealedWith(w'.pod.value, w.claims) by {
      forall c | c in w.claims
        ensures SealedClaim(w'.pod, w.claims[c])
      {
        assert SealedClaim(w.pod, w.claims[c]);
      }
    }
    assert w.live[w.pod.value.uid] == {};
  }

  ghost predicate SealedWith(p: Pod, claims: map<Name, Claim>) {
    Sealed(Some(p), claims)
  }

  lemma MarkedPodKeepsInv(w: World, recorded: UID)
    requires Inv(w) && w.pod.Some?
    ensures Inv(WithPod(w, w.pod.value.(pvcRecorded := Some(recorded))))
  {
    var w' := WithPod(w, w.pod.value.(pvcRecorded := Some(recorded)));
    assert Writers(w'.pod.value) == Writers(w.pod.value);
    forall c | c in w.claims
      ensures SealedClaim(w'.pod, w.claims[c])
    {
      assert SealedClaim(w.pod, w.claims[c]);
    }
  }

  // ---- The fence ----

  lemma RecordPlacementKeepsInv(pass: Pass)
    requires Inv(pass.w) && pass.w.pod.Some? && !pass.w.pod.value.deleting
    ensures Inv(RecordPlacement(pass, pass.w.pod.value).w)
  {
    var p := pass.w.pod.value;
    if p.pvcRecorded.None? {
      RunningWriterKeepsInv(pass);
      var named := RecordLastWriter(pass, p.claim, LastWriter(p.uid, WriterRunning, None));
      MarkedPodKeepsInv(named.w, pass.w.claims[p.claim].uid);
    }
  }

  lemma RunningWriterKeepsInv(pass: Pass)
    requires Inv(pass.w) && pass.w.pod.Some? && !pass.w.pod.value.deleting
    ensures var p := pass.w.pod.value;
            && p.claim in pass.w.claims
            && var named := RecordLastWriter(pass, p.claim, LastWriter(p.uid, WriterRunning, None));
               Inv(named.w) && named.w.pod == Some(p)
  {
    LastWriterKeepsInv(pass.w, LastWriter(pass.w.pod.value.uid, WriterRunning, None));
  }

  lemma ReleaseFenceKeepsInv(config: Config, pass: Pass, e: Evidence)
    requires Inv(pass.w) && pass.w.pod.Some? && pass.w.pod.value.deleting
    requires ReadFence(pass.w, pass.w.pod.value) == Ok(e)
    ensures Inv(ReleaseFence(config, pass, pass.w.pod.value, e).w)
  {
    var p := pass.w.pod.value;
    EvidenceMeansQuiet(pass.w, p);
    RecordEvidenceKeepsInv(config, pass, e);
    var minted := RecordEvidence(config, pass, p, e);
    if minted.running {
      StoppedWriterKeepsInv(minted, p, e);
    }
    var named := RecordStoppedWriter(minted, p, e);
    if named.running {
      ReleasedPodKeepsInv(named.w);
    }
  }

  lemma StoppedWriterKeepsInv(pass: Pass, p: Pod, e: Evidence)
    requires Inv(pass.w) && pass.w.pod == Some(p) && Quiet(p) && pass.running
    ensures var named := RecordStoppedWriter(pass, p, e);
            && Inv(named.w) && named.w.pod == Some(p)
            && (named.running ==> NamedStopped(named.w.claims[p.claim], p.uid))
  {
    LastWriterKeepsInv(pass.w, LastWriter(p.uid, WriterStopped, AgentExit(e.containers)));
  }

  lemma RecordEvidenceKeepsInv(config: Config, pass: Pass, e: Evidence)
    requires Inv(pass.w) && pass.w.pod.Some?
    ensures var minted := RecordEvidence(config, pass, pass.w.pod.value, e).w;
            Inv(minted) && minted.pod == pass.w.pod && minted.claims == pass.w.claims && minted.nodes == pass.w.nodes
  {
    EvidenceKeepsInv(pass.w, e);
    PlacementKeepsInv(Put(pass, WithEvidence(pass.w, e)).w, Some((pass.w.pod.value.uid, e)));
  }

  lemma ReconcileFenceKeepsInv(config: Config, pass: Pass)
    requires Inv(pass.w)
    ensures Inv(ReconcileFence(config, pass).0.w)
  {
    if pass.w.pod.Some? {
      var p := pass.w.pod.value;
      if !p.deleting {
        RecordPlacementKeepsInv(pass);
      } else if p.finalizer && ReadFence(pass.w, p).Ok? {
        ReleaseFenceKeepsInv(config, pass, ReadFence(pass.w, p).value);
      }
    }
  }

  // ---- The release ----

  /** The objects as they stand when a Pod's finalizer is gone. */
  ghost predicate ReleasedOnEvidence(config: Config, before: World, w: World, p: Pod) {
    && w.agent.Some? && w.agent.value.writerStopped.Some?
    && var e := w.agent.value.writerStopped.value;
    && e.podUID == p.uid
    && ReadFence(before, p) == Ok(e)
    && (config.adapter ==> w.secret == Some(Placement(before.clock, Some((p.uid, e)))))
    && (p.claim in w.claims ==> w.claims[p.claim].lastWriter == Some(LastWriter(p.uid, WriterStopped, AgentExit(e.containers))))
  }

  /** However often the release was begun before, and wherever it stopped: the write that takes the
      finalizer off leaves the Agent carrying the evidence for that Pod, the placement Secret naming
      the Pod and that evidence beside a token minted now, and the claim recording the Pod as stopped
      with its agent's exit. The fence takes a finalizer off in no other way. */
  lemma FinalizerComesOffOnEvidence(config: Config, pass: Pass, p: Pod)
    requires pass.w.agent.Some? && pass.w.pod == Some(p) && p.finalizer
    ensures var after := ReconcileFence(config, pass).0;
            && after.w.pod.Some? && after.w.pod.value.uid == p.uid
            && (!after.w.pod.value.finalizer ==>
                  && p.deleting
                  && after.w.pod.value == p.(finalizer := false)
                  && ReleasedOnEvidence(config, pass.w, after.w, p))
  {
    if p.deleting && ReadFence(pass.w, p).Ok? {
      var e := ReadFence(pass.w, p).value;
      EvidenceWritten(config, pass, p, e);
      StoppedWriterWritten(RecordEvidence(config, pass, p, e), p, e);
    }
  }

  lemma EvidenceWritten(config: Config, pass: Pass, p: Pod, e: Evidence)
    requires pass.w.agent.Some? && pass.w.pod == Some(p)
    ensures var minted := RecordEvidence(config, pass, p, e);
            && minted.w.pod == Some(p)
            && (minted.running ==>
                  && minted.w.agent == Some(pass.w.agent.value.(writerStopped := Some(e)))
                  && (config.adapter ==> minted.w.secret == Some(Placement(pass.w.clock, Some((p.uid, e))))))
  {
  }

  lemma StoppedWriterWritten(pass: Pass, p: Pod, e: Evidence)
    ensures var named := RecordStoppedWriter(pass, p, e);
            && named.w.agent == pass.w.agent && named.w.secret == pass.w.secret && named.w.pod == pass.w.pod
            && (named.running ==> pass.running)
            && (named.running && p.claim in named.w.claims ==>
                  named.w.claims[p.claim].lastWriter == Some(LastWriter(p.uid, WriterStopped, AgentExit(e.containers))))
  {
  }

  /** A release stopped after any of its writes, and begun again on the Pod as it stands, ends with
      the finalizer off: four writes are enough from wherever it stopped. */
  lemma ReleaseResumes(config: Config, pass: Pass, again: nat)
    requires pass.w.agent.Some? && pass.running && again >= 4
    requires pass.w.pod.Some? && pass.w.pod.value.deleting && pass.w.pod.value.finalizer
    requires ReadFence(pass.w, pass.w.pod.value).Ok?
    ensures var stopped := ReconcileFence(config, pass).0.w;
            var resumed := ReconcileFence(config, Pass(stopped, again, true)).0;
            resumed.running && resumed.w.pod == Some(pass.w.pod.value.(finalizer := false))
  {
    var p := pass.w.pod.value;
    var e := ReadFence(pass.w, p).value;
    FinalizerComesOffOnEvidence(config, pass, p);
    StillReads(config, pass, p, e);
    var stopped := ReconcileFence(config, pass).0.w;
    if stopped.pod.value.finalizer {
      FourWritesRelease(config, Pass(stopped, again, true), p);
    }
  }

  /** A release stopped short leaves the Pod and what its fence is read from as they were. */
  lemma StillReads(config: Config, pass: Pass, p: Pod, e: Evidence)
    requires pass.w.agent.Some? && pass.w.pod == Some(p) && p.finalizer && ReadFence(pass.w, p) == Ok(e)
    ensures var stopped := ReleaseFence(config, pass, p, e).w;
            stopped.pod.Some? && (stopped.pod.value.finalizer ==> stopped.pod == Some(p) && ReadFence(stopped, p).Ok?)
  {
    var minted := RecordEvidence(config, pass, p, e);
    MintedReads(config, pass, p, e);
    NamedReads(minted, p, e);
    var named := RecordStoppedWriter(minted, p, e);
    SameReads(pass.w, named.w, p);
  }

  lemma MintedReads(config: Config, pass: Pass, p: Pod, e: Evidence)
    ensures var w' := RecordEvidence(config, pass, p, e).w;
            w'.claims == pass.w.claims && w'.nodes == pass.w.nodes && w'.pod == pass.w.pod
  {
  }

  ghost predicate ReadsAlike(w: World, w': World) {
    && w'.nodes == w.nodes && w'.pod == w.pod && w'.claims.Keys == w.claims.Keys
    && forall c | c in w.claims :: w'.claims[c].uid == w.claims[c].uid && w'.claims[c].created == w.claims[c].created
  }

  lemma NamedReads(pass: Pass, p: Pod, e: Evidence)
    ensures ReadsAlike(pass.w, RecordStoppedWriter(pass, p, e).w)
  {
  }

  lemma SameReads(w: World, w': World, p: Pod)
    requires ReadsAlike(w, w')
    ensures ReadFence(w, p).Ok? <==> ReadFence(w', p).Ok?
  {
  }

  lemma FourWritesRelease(config: Config, pass: Pass, p: Pod)
    requires pass.running && pass.left >= 4 && pass.w.pod == Some(p) && p.deleting && p.finalizer && ReadFence(pass.w, p).Ok?
    ensures ReconcileFence(config, pass).0.running && ReconcileFence(config, pass).0.w.pod == Some(p.(finalizer := false))
  {
    var minted := RecordEvidence(config, pass, p, ReadFence(pass.w, p).value);
    assert minted.running && minted.left >= 2;
  }
}
