/**
 * The state file describes the server that wrote it, and a server that crashes after writing it comes back as it
 * was (fog/ingest/server/src/controller.rs: write_state_file, restore_state_from_summary and start-up).
 */
module StateFiles {
  import opened FogView
  import opened RecoveryTables
  import opened IngestEnclave
  import opened ControllerState
  import opened IngestProtocol

  /** The file says what the server is doing, with which key. */
  ghost predicate Described(s: Server) {
    && s.file.Some? && s.file.value.sealedKey == s.enc.ingress
    && var f := s.file.value.summary;
    && f.mode == s.st.mode && f.nextBlockIndex == s.st.nextBlockIndex && f.window == s.st.pubkeyExpiryWindow
    && f.peers == s.st.peers && f.ingress == s.enc.ingress
  }

  /** What the state file is about has not changed. */
  ghost predicate SameState(s: Server, s': Server) {
    && s'.st.mode == s.st.mode && s'.st.nextBlockIndex == s.st.nextBlockIndex
    && s'.st.pubkeyExpiryWindow == s.st.pubkeyExpiryWindow && s'.st.peers == s.st.peers
    && s'.enc.ingress == s.enc.ingress
  }

  /** Wherever the source writes the state file, the file describes the server afterwards, if one is configured. */
  lemma WritesDescribe(t: Trace, n: nat, i: ServerId)
    requires IsRun(t) && n < |t.steps| && t.steps[n].By? && t.steps[n].id == i
    requires var act := t.steps[n].act; act.ASaveState? || act.ANewKeys? || act.ARekey? || act.AFinishRestore?
    requires t.worlds[n].servers[i].cfg.stateFile
    ensures Described(t.worlds[n + 1].servers[i])
  {
  }

  /** A file changes only by being written. */
  lemma OnlyWritten(w: World, i: ServerId, act: Action)
    requires Enabled(w, By(i, act))
    ensures Act(w, i, act).server.file == w.servers[i].file || Described(Act(w, i, act).server)
  {
  }

  lemma StepKeepsDescribed(w: World, step: Step, i: ServerId)
    requires Enabled(w, step) && i < |w.servers| && Described(w.servers[i])
    requires SameState(w.servers[i], Apply(w, step).servers[i])
    ensures Described(Apply(w, step).servers[i])
  {
    if step.By? && step.id == i {
      OnlyWritten(w, i, step.act);
    }
  }

  lemma OneStays(t: Trace, n: nat, i: ServerId, s: Server)
    requires IsRun(t) && n < |t.steps| && i < |t.worlds[n].servers| && Described(t.worlds[n].servers[i])
    requires SameState(s, t.worlds[n].servers[i])
    requires i < |t.worlds[n + 1].servers| && SameState(s, t.worlds[n + 1].servers[i])
    ensures Described(t.worlds[n + 1].servers[i])
  {
    StepKeepsDescribed(t.worlds[n], t.steps[n], i);
  }

  /** From world m to world n, the state is that of s. */
  ghost predicate Unchanged(t: Trace, m: nat, n: nat, i: ServerId, s: Server)
    requires n < |t.worlds|
  {
    forall x :: m <= x <= n ==> i < |t.worlds[x].servers| && SameState(s, t.worlds[x].servers[i])
  }

  /** As long as the state does not change the file describes the server. */
  lemma {:induction false} StaysDescribed(t: Trace, m: nat, n: nat, i: ServerId, s: Server)
    requires IsRun(t) && m <= n < |t.worlds| && Unchanged(t, m, n, i, s) && Described(t.worlds[m].servers[i])
    ensures Described(t.worlds[n].servers[i])
    decreases n
  {
    if m < n {
      StaysDescribed(t, m, n - 1, i, s);
      assert SameState(s, t.worlds[n - 1].servers[i]) && SameState(s, t.worlds[n].servers[i]);
      OneStays(t, n - 1, i, s);
    }
  }

  // ---- crash and restart ------------------------------------------------------------------------------------------

  /** The server takes none of these steps, or only asks its peers. */
  ghost predicate Waits(t: Trace, m: nat, n: nat, i: ServerId, checking: bool)
    requires n <= |t.steps|
  {
    forall x :: m <= x < n && t.steps[x].By? && t.steps[x].id == i ==> checking && t.steps[x].act.ACheckPeer?
  }

  lemma WaitOne(w: World, step: Step, i: ServerId)
    requires Enabled(w, step) && i < |w.servers|
    requires step.By? && step.id == i ==> step.act.ACheckPeer?
    ensures var s, s' := w.servers[i], Apply(w, step).servers[i]; s' == s.(pc := s'.pc)
    ensures !(step.By? && step.id == i) ==> Apply(w, step).servers[i] == w.servers[i]
  {
  }

  lemma {:induction false} WaitChangesNothing(t: Trace, m: nat, n: nat, i: ServerId, checking: bool)
    requires IsRun(t) && m <= n < |t.worlds| && i < |t.worlds[m].servers| && Waits(t, m, n, i, checking)
    ensures i < |t.worlds[n].servers|
    ensures var s, s' := t.worlds[m].servers[i], t.worlds[n].servers[i]; s' == s.(pc := s'.pc)
    ensures !checking ==> t.worlds[n].servers[i] == t.worlds[m].servers[i]
    decreases n
  {
    if m < n {
      WaitChangesNothing(t, m, n - 1, i, checking);
      WaitOne(t.worlds[n - 1], t.steps[n - 1], i);
    }
  }

  /** s' is up again as s was, without an invocation id and with new rngs. */
  ghost predicate BackAs(s: Server, s': Server, egress: EgressKey) {
    && s'.run.Up? && s'.pc.Ready? && SameState(s, s') && s'.st.iid.None?
    && s'.enc.egress == egress && s'.enc.counters == map[]
  }

  lemma StartReads(w: World, i: ServerId, s: Server, ingress: IngressKey, egress: EgressKey)
    requires Enabled(w, By(i, AStartUp(ingress, egress))) && Described(s)
    requires w.servers[i].file == s.file
    ensures var s' := Act(w, i, AStartUp(ingress, egress)).server;
            && s'.enc == Enclave(s.enc.ingress, egress, map[])
            && (if s.st.mode.Idle? then BackAs(s, s', egress)
                else s'.run.Booting? && s'.pc == Restoring({}) && s'.file == s.file)
  {
  }

  /** A server saves its state, goes on without changing what was saved, crashes, and is started again: an idle one
      is back as it was, an active one has the same key and asks its peers. */
  lemma SavedStateSurvives(t: Trace, m: nat, c: nat, u: nat, i: ServerId, ingress: IngressKey, egress: EgressKey)
    requires IsRun(t) && m < c < u < |t.steps| && t.steps[m] == By(i, ASaveState)
             && t.worlds[m].servers[i].cfg.stateFile
    requires Unchanged(t, m + 1, c, i, t.worlds[m].servers[i])
    requires t.steps[c] == By(i, ACrash) && Waits(t, c + 1, u, i, false)
             && t.steps[u] == By(i, AStartUp(ingress, egress))
    ensures i < |t.worlds[u + 1].servers|
    ensures var s, s' := t.worlds[c].servers[i], t.worlds[u + 1].servers[i];
            && s'.enc == Enclave(s.enc.ingress, egress, map[])
            && (if s.st.mode.Idle? then BackAs(s, s', egress)
                else s'.run.Booting? && s'.pc == Restoring({}) && s'.file == s.file && Described(s))
  {
    WritesDescribe(t, m, i);
    StaysDescribed(t, m + 1, c, i, t.worlds[m].servers[i]);
    WaitChangesNothing(t, c + 1, u, i, false);
    StartReads(t.worlds[u], i, t.worlds[c].servers[i], ingress, egress);
  }

  lemma RestoreReads(w: World, i: ServerId, s: Server)
    requires Enabled(w, By(i, AFinishRestore)) && Described(s)
    requires w.servers[i].file == s.file && w.servers[i].enc.ingress == s.enc.ingress
             && w.servers[i].enc.counters == map[]
    ensures BackAs(s, Act(w, i, AFinishRestore).server, w.servers[i].enc.egress)
  {
  }

  /** An active server is back as it was once every peer has said that it is idle. */
  lemma RestoredAsSaved(t: Trace, m: nat, c: nat, u: nat, v: nat, i: ServerId, ingress: IngressKey, egress: EgressKey)
    requires IsRun(t) && m < c < u < v < |t.steps| && t.steps[m] == By(i, ASaveState)
    requires t.worlds[m].servers[i].cfg.stateFile
    requires Unchanged(t, m + 1, c, i, t.worlds[m].servers[i])
    requires t.steps[c] == By(i, ACrash) && Waits(t, c + 1, u, i, false)
             && t.steps[u] == By(i, AStartUp(ingress, egress))
    requires t.worlds[c].servers[i].st.mode.Active? && Waits(t, u + 1, v, i, true)
             && t.steps[v] == By(i, AFinishRestore)
    ensures i < |t.worlds[v + 1].servers| && BackAs(t.worlds[c].servers[i], t.worlds[v + 1].servers[i], egress)
  {
    SavedStateSurvives(t, m, c, u, i, ingress, egress);
    WaitChangesNothing(t, u + 1, v, i, true);
    RestoreReads(t.worlds[v], i, t.worlds[c].servers[i]);
  }

  /** Without a state file a server starts idle, at block 0, with the configured window and peers and fresh keys. */
  lemma FirstStart(t: Trace, n: nat, i: ServerId, ingress: IngressKey, egress: EgressKey)
    requires IsRun(t) && n < |t.steps| && t.steps[n] == By(i, AStartUp(ingress, egress))
    requires t.worlds[n].servers[i].file.None?
    ensures var s := t.worlds[n + 1].servers[i];
            && s.run.Up? && s.pc.Ready? && s.st.mode.Idle? && s.st.nextBlockIndex == 0 && s.st.iid.None?
            && s.st.pubkeyExpiryWindow == s.cfg.window && s.st.peers == s.cfg.peers
            && s.enc == Enclave(ingress, egress, map[]) && (s.cfg.stateFile ==> Described(s))
  {
  }

  /** What the other calls change of a server, and that they change nothing else of it. */
  lemma SettingsSet(t: Trace, n: nat, i: ServerId)
    requires IsRun(t) && n < |t.steps| && t.steps[n].By? && t.steps[n].id == i
    ensures var s, s' := t.worlds[n].servers[i], t.worlds[n + 1].servers[i];
            match t.steps[n].act
            case ASetWindow(window) =>
              && s'.st.pubkeyExpiryWindow == window && s'.st.peers == s.st.peers && s'.st.mode == s.st.mode
              && s'.st.nextBlockIndex == s.st.nextBlockIndex && s'.st.iid == s.st.iid && s' == s.(st := s'.st)
              && (s.st.mode.Active? ==> window >= s.st.pubkeyExpiryWindow)
            case ASetPeers(peers) =>
              && s'.st.peers == peers && s'.st.pubkeyExpiryWindow == s.st.pubkeyExpiryWindow && s'.st.mode == s.st.mode
              && s'.st.nextBlockIndex == s.st.nextBlockIndex && s'.st.iid == s.st.iid && s' == s.(st := s'.st)
              && i in peers
            case ANewKeys(ingress, egress) =>
              && s.st.mode.Idle? && s'.enc == Enclave(ingress, egress, map[]) && s'.st.iid.None?
              && s'.pc == s.pc && SameState(s.(enc := s'.enc), s')
            case ASetIngressKey(ingress) =>
              s.st.mode.Idle? && s'.enc == Enclave(ingress, s.enc.egress, s.enc.counters) && s' == s.(enc := s'.enc)
            case ASaveState => s' == s.(file := s'.file)
            case AActivate => s.st.mode.Idle? && s' == s.(pc := Activating({}, CheckingPeers))
            case AAbortActivate => s.pc.Activating? && s' == s.(pc := Ready)
            case ACrash => s'.run.Down? && s'.st.iid.None? && s'.cfg == s.cfg && s'.file == s.file
            case ARekey(egress) =>
              s'.enc == Enclave(s.enc.ingress, egress, map[]) && s'.pc == Ready && s'.st == s.st
            case _ => true
  {
  }
}
