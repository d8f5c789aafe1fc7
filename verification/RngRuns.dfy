/**
 * Every step except a failed ingest_txs keeps the rng invariant; hence the no-gap theorem for every
 * run without such failures.
 */
module RngRuns {
  import opened FogView
  import opened RecoveryTables
  import opened TableLaws
  import opened IngestEnclave
  import opened ControllerState
  import opened IngestProtocol
  import opened Contiguity
  import opened ContiguityRuns
  import opened RngStreams

  lemma SameStreams(db: Db, db': Db, s: Server, s': Server)
    requires StreamsOk(db, s)
    requires db'.blocks == db.blocks && s'.mine == s.mine && Pending(s') == Pending(s)
    requires s'.enc.egress == s.enc.egress && s'.enc.counters == s.enc.counters
    ensures StreamsOk(db', s')
  {
    forall e: EgressKey, view: ViewKey | e in s'.mine
      ensures Stream(db', s', SharedSecret(e, view)) == Stream(db, s, SharedSecret(e, view))
    {
    }
  }

  /** Actions that neither draw from an rng nor store a block. */
  predicate Quiet(act: Action) {
    !act.AIngestChunk? && !act.AAddBlock? && !act.ANewKeys? && !act.ARekey? && !act.AStartUp?
    && !act.ATakeInvocation? && !act.ARecordRotation?
  }

  /** What a quiet action leaves alone. */
  ghost predicate QuietShape(db: Db, db': Db, s: Server, s': Server) {
    && db'.blocks == db.blocks
    && s'.mine == s.mine && s'.enc.egress == s.enc.egress && s'.enc.counters == s.enc.counters
    && Pending(s') == Pending(s)
    && (s'.st.iid == s.st.iid || s'.st.iid.None?)
    && (s'.pc.Scanning? || s'.pc.Rotating? || s.pc.Rotating? ==> s'.pc == s.pc)
    && (Doomed(db, s) ==> Doomed(db', s'))
  }

  lemma ActivationHasShape(w: World, i: ServerId, act: Action)
    requires Inv(w) && i < |w.servers| && ActEnabled(w, i, act)
    requires act.AActivate? || act.ACheckPeer? || act.AReadStatus? || act.AReadLast? || act.AReadHighest?
             || act.AAbortActivate?
             || act.AInsertKey? || act.APublishActivate? || act.AFinishRestore?
    ensures QuietShape(w.db, Act(w, i, act).db, w.servers[i], Act(w, i, act).server)
  {
    assert Holds(w.db, w.servers[i]) && Placed(w.db, w.servers[i]);
  }

  lemma OtherQuietHasShape(w: World, i: ServerId, act: Action)
    requires Inv(w) && i < |w.servers| && ActEnabled(w, i, act)
    requires act.ASetWindow? || act.ASetPeers? || act.ASetIngressKey? || act.ASaveState? || act.ABeginBlock?
             || act.AFinish?
             || act.ADropInvocation?
    ensures QuietShape(w.db, Act(w, i, act).db, w.servers[i], Act(w, i, act).server)
  {
    assert Holds(w.db, w.servers[i]) && Placed(w.db, w.servers[i]);
  }

  lemma QuietHasShape(w: World, i: ServerId, act: Action)
    requires Inv(w) && i < |w.servers| && ActEnabled(w, i, act) && Quiet(act) && !act.ACrash?
    ensures QuietShape(w.db, Act(w, i, act).db, w.servers[i], Act(w, i, act).server)
  {
    if act.ASetWindow? || act.ASetPeers? || act.ASetIngressKey? || act.ASaveState? || act.ABeginBlock? || act.AFinish?
       || act.ADropInvocation? {
      OtherQuietHasShape(w, i, act);
    } else {
      ActivationHasShape(w, i, act);
    }
  }

  lemma QuietKeeps(w: World, i: ServerId, act: Action)
    requires Inv(w) && RngInv(w) && i < |w.servers| && ActEnabled(w, i, act) && Quiet(act)
    ensures RngOk(Act(w, i, act).db, Act(w, i, act).server)
  {
    if !act.ACrash? {
      QuietHasShape(w, i, act);
      ActIsOp(w, i, act);
      ApplyExtends(w.db, ActOp(w, i, act));
      assert RngOk(w.db, w.servers[i]) && Holds(w.db, w.servers[i]) && Placed(w.db, w.servers[i]);
      ShapeKeepsRng(w.db, Act(w, i, act).db, w.servers[i], Act(w, i, act).server);
    }
  }

  lemma ShapeKeepsRng(db: Db, db': Db, s: Server, s': Server)
    requires Extends(db, db') && Holds(db, s) && RngOk(db, s) && QuietShape(db, db', s, s')
    requires s.run.Down? ==> s'.run.Down?
    ensures RngOk(db', s')
  {
    if !s'.run.Down? {
      AnnouncedStable(db, db', s);
      if !Doomed(db', s') {
        SameStreams(db, db', s, s');
      }
    }
  }

  lemma TakeKeeps(w: World, i: ServerId, act: Action)
    requires Inv(w) && RngInv(w) && i < |w.servers| && ActEnabled(w, i, act) && act.ATakeInvocation?
    ensures RngOk(Act(w, i, act).db, Act(w, i, act).server)
  {
    var s, r := w.servers[i], Act(w, i, act);
    assert RngOk(w.db, s) && Holds(w.db, s) && Placed(w.db, s);
    if !r.server.run.Down? {
      SameStreams(w.db, r.db, s, r.server);
    }
  }

  /** Recording a rotation either changes nothing but the tables, or moves on with an invocation of the new key. */
  ghost predicate RotationShape(db: Db, db': Db, s: Server, s': Server) {
    && s.pc.Rotating? && db'.blocks == db.blocks && s'.enc == s.enc && s'.mine == s.mine && s'.run == s.run
    && (s' == s || (
          && s'.pc == Scanning(s.pc.block, s.pc.rows, s.pc.pos, s.pc.timestamp)
          && s'.st.iid.Some? && s'.st.iid.value < |db'.invocations|
          && db'.invocations[s'.st.iid.value].egress == s.pc.egress))
  }

  lemma RotationHasShape(w: World, i: ServerId, act: Action)
    requires i < |w.servers| && ActEnabled(w, i, act) && act.ARecordRotation?
    ensures RotationShape(w.db, Act(w, i, act).db, w.servers[i], Act(w, i, act).server)
  {
  }

  lemma RotationShapeKeeps(db: Db, db': Db, s: Server, s': Server)
    requires Extends(db, db') && Holds(db, s) && RngOk(db, s) && RotationShape(db, db', s, s')
    ensures RngOk(db', s')
  {
    if !s.run.Down? {
      AnnouncedStable(db, db', s);
      EgressKeysGrow(db, db');
      if s' != s {
        assert s.enc.egress in EgressKeys(db'.invocations);
      }
      if !Doomed(db', s') {
        SameStreams(db, db', s, s');
      }
    }
  }

  lemma RotationKeeps(w: World, i: ServerId, act: Action)
    requires Inv(w) && RngInv(w) && i < |w.servers| && ActEnabled(w, i, act) && act.ARecordRotation?
    ensures RngOk(Act(w, i, act).db, Act(w, i, act).server)
  {
    assert RngOk(w.db, w.servers[i]) && Holds(w.db, w.servers[i]);
    ActIsOp(w, i, act);
    ApplyExtends(w.db, ActOp(w, i, act));
    RotationHasShape(w, i, act);
    RotationShapeKeeps(w.db, Act(w, i, act).db, w.servers[i], Act(w, i, act).server);
  }

  lemma FreshKeeps(w: World, i: ServerId, act: Action)
    requires Inv(w) && RngInv(w) && i < |w.servers| && ActEnabled(w, i, act)
    requires act.ANewKeys? || act.ARekey? || act.AStartUp?
    requires act.egress !in w.issued
    ensures RngOk(Act(w, i, act).db, Act(w, i, act).server)
  {
    assert Holds(w.db, w.servers[i]) && Placed(w.db, w.servers[i]);
    FreshStart(w, Act(w, i, act).server);
  }

  lemma ChunkKeeps(w: World, i: ServerId, act: Action)
    requires Inv(w) && RngInv(w) && Enabled(w, By(i, act)) && NoIngestFailure(By(i, act)) && act.AIngestChunk?
    ensures RngOk(Act(w, i, act).db, Act(w, i, act).server)
  {
    match act.outcome
    case Kept => KeptChunk(w, i, act.strays);
    case Rotated(egress) => RotatedChunk(w, i, egress, act.strays);
  }

  lemma DrawKeeps(w: World, i: ServerId, act: Action)
    requires Inv(w) && RngInv(w) && Enabled(w, By(i, act)) && !Quiet(act) && !act.AIngestChunk? && !act.AAddBlock?
    ensures RngOk(Act(w, i, act).db, Act(w, i, act).server)
  {
    if act.ATakeInvocation? {
      TakeKeeps(w, i, act);
    } else if act.ARecordRotation? {
      RotationKeeps(w, i, act);
    } else {
      FreshKeeps(w, i, act);
    }
  }

  lemma ActKeepsRng(w: World, i: ServerId, act: Action)
    requires Inv(w) && RngInv(w) && Enabled(w, By(i, act)) && NoIngestFailure(By(i, act))
    ensures RngOk(Act(w, i, act).db, Act(w, i, act).server)
  {
    if act.AIngestChunk? {
      ChunkKeeps(w, i, act);
    } else if act.AAddBlock? {
      CommittedBlock(w, i, act.out);
    } else if Quiet(act) {
      QuietKeeps(w, i, act);
    } else {
      DrawKeeps(w, i, act);
    }
  }

  /** A block committed by a server holds its pending rows; no other action stores one. */
  lemma ActStores(w: World, i: ServerId, act: Action)
    requires i < |w.servers| && ActEnabled(w, i, act)
    ensures var db' := Act(w, i, act).db;
            db'.blocks == w.db.blocks ||
            (w.servers[i].pc.Scanning? && |db'.blocks| == |w.db.blocks| + 1
             && db'.blocks[..|w.db.blocks|] == w.db.blocks
             && db'.blocks[|w.db.blocks|].records == w.servers[i].pc.rows && db'.invocations == w.db.invocations)
  {
    ActIsOp(w, i, act);
  }

  /** Rows added by an action are made with its server's own egress keys, announced ones. */
  lemma ActAddsOwnRows(w: World, i: ServerId, act: Action)
    requires Inv(w) && RngInv(w) && Enabled(w, By(i, act))
    ensures var db' := Act(w, i, act).db;
            && (db'.blocks == w.db.blocks ||
                (|db'.blocks| == |w.db.blocks| + 1 && MadeWith(db'.blocks[|w.db.blocks|].records, w.servers[i].mine)))
            && RowsMadeWith(db'.blocks, w.issued)
            && RowsMadeWith(db'.blocks, EgressKeys(db'.invocations))
  {
    ActStores(w, i, act);
    ActIsOp(w, i, act);
    ApplyExtends(w.db, ActOp(w, i, act));
    StoredRowsOk(w.db, Act(w, i, act).db, w.servers[i], w.issued);
  }

  lemma StoredRowsOk(db: Db, db': Db, s: Server, issued: set<EgressKey>)
    requires Extends(db, db') && RngOk(db, s) && s.mine <= issued && (s.pc.Scanning? ==> !s.run.Down?)
    requires RowsMadeWith(db.blocks, issued) && RowsMadeWith(db.blocks, EgressKeys(db.invocations))
    requires db'.blocks == db.blocks ||
             (s.pc.Scanning? && |db'.blocks| == |db.blocks| + 1 && db'.blocks[..|db.blocks|] == db.blocks
              && db'.blocks[|db.blocks|].records == s.pc.rows && db'.invocations == db.invocations)
    ensures db'.blocks == db.blocks ||
            (|db'.blocks| == |db.blocks| + 1 && MadeWith(db'.blocks[|db.blocks|].records, s.mine))
    ensures RowsMadeWith(db'.blocks, issued) && RowsMadeWith(db'.blocks, EgressKeys(db'.invocations))
  {
    EgressKeysGrow(db, db');
    assert forall r :: 0 <= r < |db.blocks| ==> db'.blocks[r] == db.blocks[r];
  }

  /** An action's egress keys stay apart from everybody else's. */
  lemma ActMine(w: World, i: ServerId, act: Action)
    requires Inv(w) && RngInv(w) && Enabled(w, By(i, act))
    ensures var s', drawn := Act(w, i, act).server, FreshEgress(w.servers[i], act);
            s'.mine <= w.servers[i].mine + (if drawn.Some? then {drawn.value} else {})
  {
    assert RngOk(w.db, w.servers[i]) && Placed(w.db, w.servers[i]);
  }

  lemma OtherRng(w: World, i: ServerId, act: Action, j: ServerId)
    requires Inv(w) && RngInv(w) && Enabled(w, By(i, act)) && j < |w.servers| && j != i
    ensures RngOk(Act(w, i, act).db, w.servers[j])
  {
    ActAddsOwnRows(w, i, act);
    ActIsOp(w, i, act);
    ApplyExtends(w.db, ActOp(w, i, act));
    assert RngOk(w.db, w.servers[j]) && Holds(w.db, w.servers[j]);
    RngStable(w.db, Act(w, i, act).db, w.servers[j], w.servers[i].mine);
  }

  lemma MineStaysDisjoint(w: World, i: ServerId, s': Server, drawn: set<EgressKey>)
    requires MineDisjoint(w.servers) && i < |w.servers|
    requires forall j :: 0 <= j < |w.servers| ==> w.servers[j].mine <= w.issued
    requires s'.mine <= w.servers[i].mine + drawn && drawn !! w.issued
    ensures MineDisjoint(w.servers[i := s'])
  {
  }

  lemma ActKeepsGapFree(w: World, i: ServerId, act: Action)
    requires Inv(w) && RngInv(w) && Enabled(w, By(i, act))
    ensures GapFree(Act(w, i, act).db)
  {
    if act.AAddBlock? {
      CommittedBlock(w, i, act.out);
    } else {
      ActIsOp(w, i, act);
      assert Act(w, i, act).db.blocks == w.db.blocks;
    }
  }

  lemma ActStepKeepsRng(w: World, i: ServerId, act: Action)
    requires Inv(w) && RngInv(w) && Enabled(w, By(i, act)) && NoIngestFailure(By(i, act))
    ensures RngInv(Apply(w, By(i, act)))
  {
    var w', r := Apply(w, By(i, act)), Act(w, i, act);
    var drawn := FreshEgress(w.servers[i], act);
    ActKeepsRng(w, i, act);
    ActAddsOwnRows(w, i, act);
    ActMine(w, i, act);
    ActKeepsGapFree(w, i, act);
    MineStaysDisjoint(w, i, r.server, if drawn.Some? then {drawn.value} else {});
    forall j | 0 <= j < |w.servers|
      ensures RngOk(w'.db, w'.servers[j]) && w'.servers[j].mine <= w'.issued
    {
      if j != i {
        OtherRng(w, i, act, j);
      }
    }
  }

  lemma OperatorKeepsRng(w: World, op: DbOp)
    requires Inv(w) && RngInv(w) && IsOperatorOp(op)
    ensures RngInv(w.(db := DbApply(w.db, op)))
  {
    ApplyExtends(w.db, op);
    EgressKeysGrow(w.db, DbApply(w.db, op));
    forall j | 0 <= j < |w.servers|
      ensures RngOk(DbApply(w.db, op), w.servers[j])
    {
      assert RngOk(w.db, w.servers[j]) && Holds(w.db, w.servers[j]);
      RngStable(w.db, DbApply(w.db, op), w.servers[j], {});
    }
  }

  lemma StepKeepsRng(w: World, step: Step)
    requires Inv(w) && RngInv(w) && Enabled(w, step) && NoIngestFailure(step)
    ensures RngInv(Apply(w, step))
  {
    match step
    case LedgerGrows(_) =>
    case Operator(op) => OperatorKeepsRng(w, op);
    case By(i, act) => ActStepKeepsRng(w, i, act);
  }

  ghost predicate NoFailures(t: Trace, n: nat) {
    forall m :: 0 <= m < n && m < |t.steps| ==> NoIngestFailure(t.steps[m])
  }

  lemma {:induction false} RunRngInv(t: Trace, n: nat)
    requires IsRun(t) && n < |t.worlds| && NoFailures(t, n)
    ensures RngInv(t.worlds[n])
  {
    if n > 0 {
      RunRngInv(t, n - 1);
      RunInv(t, n - 1);
      StepKeepsRng(t.worlds[n - 1], t.steps[n - 1]);
    }
  }

  /** No rng gaps: in every world of every run without ingest failures, for every egress key and every
      user, the search keys stored in the database for that rng are exactly its outputs 0..k-1, each
      once and in order, and every egress key in use was announced by an invocation. */
  lemma NoRngGaps(t: Trace, n: nat, egress: EgressKey, view: ViewKey)
    requires IsRun(t) && n < |t.worlds| && NoFailures(t, n)
    ensures var db := t.worlds[n].db;
            var stored := Published(db.blocks, SharedSecret(egress, view));
            && stored == Outputs(SharedSecret(egress, view), |stored|)
            && (stored != [] ==> egress in EgressKeys(db.invocations))
  {
    RunRngInv(t, n);
    var db := t.worlds[n].db;
    assert Gapless(Published(db.blocks, SharedSecret(egress, view)), SharedSecret(egress, view));
    if egress !in EgressKeys(db.invocations) {
      PublishedForeign(db.blocks, EgressKeys(db.invocations), SharedSecret(egress, view));
    }
  }
}
