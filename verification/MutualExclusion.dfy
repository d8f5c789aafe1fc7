/**
 * Activation is mutually exclusive among peers (fog/ingest/server/src/controller.rs:562-716, 896-972):
 * `activate` keeps its own state lock while it asks every peer for its status, and a peer answers
 * only when its own lock is free. Restarting as Active from a state file does not break this.
 */
module MutualExclusion {
  import opened ControllerState
  import opened IngestProtocol
  import opened Contiguity
  import opened ContiguityRuns

  /** Peer lists, wherever they are kept, are the fixed symmetric relation `peersOf`. */
  ghost predicate FixedPeers(w: World, peersOf: ServerId -> set<ServerId>) {
    && (forall i, j: ServerId :: j in peersOf(i) <==> i in peersOf(j))
    && (forall i :: 0 <= i < |w.servers| ==>
          && w.servers[i].st.peers == peersOf(i)
          && (w.servers[i].file.Some? ==> w.servers[i].file.value.summary.peers == peersOf(i)))
  }

  predicate FileActive(s: Server) {
    s.file.Some? && s.file.value.summary.mode.Active?
  }

  /** The server is active, or would come back as active. */
  predicate Claims(s: Server) {
    s.st.mode.Active? || FileActive(s)
  }

  predicate HasChecked(s: Server, j: ServerId) {
    s.pc.Activating? && j in s.pc.checked
  }

  ghost predicate LocalOk(i: ServerId, s: Server, peers: set<ServerId>) {
    && (!s.cfg.stateFile ==> s.file.None?)
    && (s.run.Up? && s.st.mode.Idle? && (s.pc.Ready? || s.pc.Activating?) ==> !FileActive(s))
    && (s.pc.Activating? && !s.pc.phase.CheckingPeers? ==> peers - {i} <= s.pc.checked)
  }

  ghost predicate PairOk(i: ServerId, s: Server, j: ServerId, r: Server) {
    && !(Claims(s) && Claims(r))
    && (HasChecked(s, j) ==> !Claims(r) && !HasChecked(r, i))
    && (HasChecked(r, i) ==> !Claims(s))
  }

  ghost predicate MutexInv(w: World, peersOf: ServerId -> set<ServerId>) {
    && (forall i :: 0 <= i < |w.servers| ==> LocalOk(i, w.servers[i], peersOf(i)))
    && (forall i, j :: 0 <= i < |w.servers| && 0 <= j < |w.servers| && i != j && j in peersOf(i) ==>
          PairOk(i, w.servers[i], j, w.servers[j]))
  }

  lemma ActKeepsLocal(w: World, i: ServerId, act: Action, peers: set<ServerId>)
    requires i < |w.servers| && ActEnabled(w, i, act) && Placed(w.db, w.servers[i])
    requires LocalOk(i, w.servers[i], peers) && w.servers[i].st.peers == peers
    ensures LocalOk(i, Act(w, i, act).server, peers)
  {
  }

  lemma ActLocalOk(w: World, i: ServerId, act: Action, peersOf: ServerId -> set<ServerId>)
    requires Inv(w) && FixedPeers(w, peersOf) && MutexInv(w, peersOf) && Enabled(w, By(i, act))
    ensures LocalOk(i, Act(w, i, act).server, peersOf(i))
  {
    ActKeepsLocal(w, i, act, peersOf(i));
  }

  /** A server starts to claim activity only by completing `activate`. */
  lemma ClaimsOnlyByActivate(w: World, i: ServerId, act: Action)
    requires Inv(w) && i < |w.servers| && ActEnabled(w, i, act) && !Claims(w.servers[i])
             && Claims(Act(w, i, act).server)
    ensures act.APublishActivate? && w.servers[i].pc.Activating? && w.servers[i].pc.phase.Publishing?
  {
    assert Placed(w.db, w.servers[i]);
  }

  /** A server has newly checked a peer only by asking it, and then the peer was idle and unlocked. */
  lemma ChecksOnlyByAsking(w: World, i: ServerId, act: Action, j: ServerId)
    requires i < |w.servers| && ActEnabled(w, i, act) && !HasChecked(w.servers[i], j)
             && HasChecked(Act(w, i, act).server, j)
    ensures act == ACheckPeer(j) && j < |w.servers| && Serving(w.servers[j]) && w.servers[j].st.mode.Idle?
  {
  }

  lemma ActPairOk(w: World, i: ServerId, act: Action, j: ServerId, peersOf: ServerId -> set<ServerId>)
    requires Inv(w) && FixedPeers(w, peersOf) && MutexInv(w, peersOf) && Enabled(w, By(i, act))
    requires j < |w.servers| && j != i && j in peersOf(i)
    ensures PairOk(i, Act(w, i, act).server, j, w.servers[j])
    ensures PairOk(j, w.servers[j], i, Act(w, i, act).server)
  {
    var s, r, s' := w.servers[i], w.servers[j], Act(w, i, act).server;
    assert PairOk(i, s, j, r) && LocalOk(i, s, peersOf(i)) && LocalOk(j, r, peersOf(j));
    assert Placed(w.db, s) && Placed(w.db, r);
    if !Claims(s) && Claims(s') {
      ClaimsOnlyByActivate(w, i, act);
      assert HasChecked(s, j);
    }
    if !HasChecked(s, j) && HasChecked(s', j) {
      ChecksOnlyByAsking(w, i, act, j);
    }
  }

  lemma StepKeepsMutex(w: World, step: Step, peersOf: ServerId -> set<ServerId>)
    requires Inv(w) && FixedPeers(w, peersOf) && MutexInv(w, peersOf) && Enabled(w, step)
    ensures MutexInv(Apply(w, step), peersOf)
  {
    if step.By? {
      var w', i := Apply(w, step), step.id;
      ActLocalOk(w, i, step.act, peersOf);
      forall j, k | 0 <= j < |w.servers| && 0 <= k < |w.servers| && j != k && k in peersOf(j)
        ensures PairOk(j, w'.servers[j], k, w'.servers[k])
      {
        if j == i {
          ActPairOk(w, i, step.act, k, peersOf);
        } else if k == i {
          ActPairOk(w, i, step.act, j, peersOf);
        }
      }
    }
  }

  ghost predicate PeersFixedThroughout(t: Trace, n: nat, peersOf: ServerId -> set<ServerId>) {
    forall m :: 0 <= m <= n && m < |t.worlds| ==> FixedPeers(t.worlds[m], peersOf)
  }

  lemma {:induction false} RunMutex(t: Trace, n: nat, peersOf: ServerId -> set<ServerId>)
    requires IsRun(t) && n < |t.worlds| && PeersFixedThroughout(t, n, peersOf)
    ensures MutexInv(t.worlds[n], peersOf)
  {
    if n > 0 {
      RunMutex(t, n - 1, peersOf);
      RunInv(t, n - 1);
      StepKeepsMutex(t.worlds[n - 1], t.steps[n - 1], peersOf);
    }
  }

  /** With fixed symmetric peer lists no two peers are ever both active, through any interleaving of
      activations, crashes and restarts; and a server restarting as active never finds an active peer. */
  lemma NoTwoActivePeers(t: Trace, n: nat, peersOf: ServerId -> set<ServerId>, i: ServerId, j: ServerId)
    requires IsRun(t) && n < |t.worlds| && PeersFixedThroughout(t, n, peersOf)
    requires i < |t.worlds[n].servers| && j < |t.worlds[n].servers| && i != j && j in peersOf(i)
    ensures !(t.worlds[n].servers[i].st.mode.Active? && t.worlds[n].servers[j].st.mode.Active?)
    ensures t.worlds[n].servers[i].pc.Restoring? ==> t.worlds[n].servers[j].st.mode.Idle?
  {
    RunMutex(t, n, peersOf);
    RunInv(t, n);
    assert PairOk(i, t.worlds[n].servers[i], j, t.worlds[n].servers[j]);
    assert Placed(t.worlds[n].db, t.worlds[n].servers[i]);
  }
}
