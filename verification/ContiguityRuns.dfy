/**
 * Every step of every server keeps the contiguity and ownership invariant, hence every world of
 * every run satisfies it.
 */
module ContiguityRuns {
  import opened Prelude
  import opened RecoveryTables
  import opened TableLaws
  import opened ControllerState
  import opened IngestProtocol
  import opened Contiguity

  function IfCommitted(op: DbOp, out: Outcome): DbOp {
    if out.Failed? then OpNone else op
  }

  /** The database transaction, if any, inside an action. */
  function ActOp(w: World, i: ServerId, act: Action): DbOp
    requires i < |w.servers| && ActEnabled(w, i, act)
  {
    var s := w.servers[i];
    match act
    case AInsertKey(out) => IfCommitted(OpNewKey(s.enc.ingress, s.pc.phase.startBlock), out)
    case APublishActivate(out) => IfCommitted(ReportOp(s.(st := s.st.(nextBlockIndex := s.pc.phase.startBlock))), out)
    case ABeginBlock(out) => IfCommitted(ReportOp(s), out)
    case ATakeInvocation(out, _) =>
      if s.st.iid.Some? then OpNone
      else IfCommitted(OpNewInvocation(None, s.enc.ingress, s.enc.egress, s.st.nextBlockIndex), out)
    case ARecordRotation(out) => IfCommitted(OpNewInvocation(s.st.iid, s.enc.ingress, s.pc.egress, s.pc.block), out)
    case AAddBlock(out) =>
      IfCommitted(OpAddBlock(s.st.iid.value, s.pc.block, w.ledger[s.pc.block].cumulativeTxoCount, s.pc.timestamp,
                             s.pc.rows), out)
    case ADropInvocation(out) => if s.st.iid.Some? then IfCommitted(OpDecommission(s.st.iid.value), out) else OpNone
    case _ => OpNone
  }

  lemma ActIsOp(w: World, i: ServerId, act: Action)
    requires i < |w.servers| && ActEnabled(w, i, act)
    ensures Act(w, i, act).db == DbApply(w.db, ActOp(w, i, act))
  {
  }

  function StepOp(w: World, step: Step): DbOp
    requires Enabled(w, step)
  {
    match step
    case LedgerGrows(_) => OpNone
    case Operator(op) => op
    case By(i, act) => ActOp(w, i, act)
  }

  /** The tables change by exactly one transaction per step, so every law of the tables holds of the protocol. */
  lemma StepIsOp(w: World, step: Step)
    requires Enabled(w, step)
    ensures Apply(w, step).db == DbApply(w.db, StepOp(w, step))
  {
    if step.By? {
      ActIsOp(w, step.id, step.act);
    }
  }

  // ---- one action ---------------------------------------------------------------------------------

  /** Whatever id the server holds afterwards it held before, or it was created by this step. */
  ghost predicate IidFrom(db: Db, s: Server, s': Server) {
    s'.st.iid.None? || s'.st.iid == s.st.iid || s'.st.iid == Some(|db.invocations|)
  }

  /** An action only decommissions the id its own server holds, and adds blocks in order. */
  lemma ActInOrder(w: World, i: ServerId, act: Action)
    requires Inv(w) && i < |w.servers| && ActEnabled(w, i, act)
    ensures BlockInOrder(w.db, ActOp(w, i, act))
    ensures forall x: InvocationId :: Decommissions(ActOp(w, i, act), x) ==> w.servers[i].st.iid == Some(x)
  {
    assert Placed(w.db, w.servers[i]) && Holds(w.db, w.servers[i]);
  }

  ghost predicate Kept(db: Db, db': Db, s: Server, s': Server) {
    Placed(db', s') && Holds(db', s') && IidFrom(db, s, s')
  }

  lemma ReadKeeps(w: World, i: ServerId, act: Action)
    requires Inv(w) && i < |w.servers| && ActEnabled(w, i, act)
    requires act.AActivate? || act.ACheckPeer? || act.AReadStatus? || act.AReadLast? || act.AReadHighest?
             || act.AAbortActivate?
    ensures Kept(w.db, Act(w, i, act).db, w.servers[i], Act(w, i, act).server)
  {
    var s := w.servers[i];
    assert Placed(w.db, s) && Holds(w.db, s);
    if act.AReadLast? {
      ContiguousMeans(w.db, s.enc.ingress, 0);
    }
  }

  lemma ActivateKeeps(w: World, i: ServerId, act: Action)
    requires Inv(w) && i < |w.servers| && ActEnabled(w, i, act) && (act.AInsertKey? || act.APublishActivate?)
    ensures Kept(w.db, Act(w, i, act).db, w.servers[i], Act(w, i, act).server)
  {
    var s, op := w.servers[i], ActOp(w, i, act);
    assert Placed(w.db, s) && Holds(w.db, s);
    ActIsOp(w, i, act);
    ActInOrder(w, i, act);
    ApplyKeepsDbOk(w.db, op);
    ApplyExtends(w.db, op);
    PlacedStable(w.db, DbApply(w.db, op), s);
    HoldsStable(w.db, op, s);
  }

  lemma BlockKeeps(w: World, i: ServerId, act: Action)
    requires Inv(w) && i < |w.servers| && ActEnabled(w, i, act)
    requires act.ABeginBlock? || act.AIngestChunk? || act.ADropInvocation? || act.ARekey?
    ensures Kept(w.db, Act(w, i, act).db, w.servers[i], Act(w, i, act).server)
  {
    var s, op := w.servers[i], ActOp(w, i, act);
    assert Placed(w.db, s) && Holds(w.db, s);
    ActIsOp(w, i, act);
    ApplyExtends(w.db, op);
    PlacedStable(w.db, DbApply(w.db, op), s);
    if !act.ADropInvocation? {
      HoldsStable(w.db, op, s);
    }
  }

  lemma AddBlockKeeps(w: World, i: ServerId, act: Action)
    requires Inv(w) && i < |w.servers| && ActEnabled(w, i, act) && act.AAddBlock?
    ensures Kept(w.db, Act(w, i, act).db, w.servers[i], Act(w, i, act).server)
  {
    var s, op := w.servers[i], ActOp(w, i, act);
    assert Placed(w.db, s) && Holds(w.db, s);
    ActIsOp(w, i, act);
    ApplyExtends(w.db, op);
    PlacedStable(w.db, DbApply(w.db, op), s);
    HoldsStable(w.db, op, s);
    if act.out.Acked? {
      AlreadyScannedIff(w.db, op.iid, op.block, op.cumulative, op.timestamp, op.records);
    }
  }

  lemma FinishKeeps(w: World, i: ServerId, act: Action)
    requires Inv(w) && i < |w.servers| && ActEnabled(w, i, act) && act.AFinish?
    ensures Kept(w.db, Act(w, i, act).db, w.servers[i], Act(w, i, act).server)
  {
    var s := w.servers[i];
    assert Placed(w.db, s) && Holds(w.db, s);
    ContiguousMeans(w.db, s.enc.ingress, s.pc.block);
  }

  lemma InvocationKeeps(w: World, i: ServerId, act: Action)
    requires Inv(w) && i < |w.servers| && ActEnabled(w, i, act)
    requires act.ATakeInvocation? || act.ARecordRotation?
    ensures Kept(w.db, Act(w, i, act).db, w.servers[i], Act(w, i, act).server)
  {
    var s, op := w.servers[i], ActOp(w, i, act);
    assert Placed(w.db, s) && Holds(w.db, s);
    ActIsOp(w, i, act);
    ApplyExtends(w.db, op);
    PlacedStable(w.db, DbApply(w.db, op), s);
  }

  lemma RestKeeps(w: World, i: ServerId, act: Action)
    requires Inv(w) && i < |w.servers| && ActEnabled(w, i, act)
    requires act.ASetWindow? || act.ASetPeers? || act.ANewKeys? || act.ASetIngressKey? || act.ASaveState?
             || act.ACrash? || act.AStartUp? || act.AFinishRestore?
    ensures Kept(w.db, Act(w, i, act).db, w.servers[i], Act(w, i, act).server)
  {
    assert Placed(w.db, w.servers[i]) && Holds(w.db, w.servers[i]);
  }

  lemma ActKeeps(w: World, i: ServerId, act: Action)
    requires Inv(w) && i < |w.servers| && ActEnabled(w, i, act)
    ensures Kept(w.db, Act(w, i, act).db, w.servers[i], Act(w, i, act).server)
  {
    match act
    case AActivate => ReadKeeps(w, i, act);
    case ACheckPeer(_) => ReadKeeps(w, i, act);
    case AReadStatus => ReadKeeps(w, i, act);
    case AReadLast => ReadKeeps(w, i, act);
    case AReadHighest(_) => ReadKeeps(w, i, act);
    case AInsertKey(_) => ActivateKeeps(w, i, act);
    case APublishActivate(_) => ActivateKeeps(w, i, act);
    case AAbortActivate => ReadKeeps(w, i, act);
    case ABeginBlock(_) => BlockKeeps(w, i, act);
    case AIngestChunk(_, _) => BlockKeeps(w, i, act);
    case AAddBlock(_) => AddBlockKeeps(w, i, act);
    case AFinish => FinishKeeps(w, i, act);
    case ADropInvocation(_) => BlockKeeps(w, i, act);
    case ARekey(_) => BlockKeeps(w, i, act);
    case ATakeInvocation(_, _) => InvocationKeeps(w, i, act);
    case ARecordRotation(_) => InvocationKeeps(w, i, act);
    case _ => RestKeeps(w, i, act);
  }

  // ---- one step, one run -----------------------------------------------------------------------------

  /** A transaction of one party leaves every other server where it was. */
  lemma OthersKept(w: World, op: DbOp, j: ServerId)
    requires Inv(w) && j < |w.servers|
    requires w.servers[j].st.iid.Some? ==> !Decommissions(op, w.servers[j].st.iid.value)
    ensures Placed(DbApply(w.db, op), w.servers[j]) && Holds(DbApply(w.db, op), w.servers[j])
  {
    ApplyExtends(w.db, op);
    PlacedStable(w.db, DbApply(w.db, op), w.servers[j]);
    HoldsStable(w.db, op, w.servers[j]);
  }

  lemma OperatorKeepsInv(w: World, op: DbOp)
    requires Inv(w) && IsOperatorOp(op)
    ensures Inv(w.(db := DbApply(w.db, op)))
  {
    ApplyKeepsDbOk(w.db, op);
    forall j | 0 <= j < |w.servers|
      ensures Placed(DbApply(w.db, op), w.servers[j]) && Holds(DbApply(w.db, op), w.servers[j])
    {
      OthersKept(w, op, j);
    }
  }

  lemma ActStepKeepsInv(w: World, i: ServerId, act: Action)
    requires Inv(w) && Enabled(w, By(i, act))
    ensures Inv(Apply(w, By(i, act)))
  {
    var w', op := Apply(w, By(i, act)), ActOp(w, i, act);
    ActIsOp(w, i, act);
    ActInOrder(w, i, act);
    ApplyKeepsDbOk(w.db, op);
    ActKeeps(w, i, act);
    forall j | 0 <= j < |w.servers|
      ensures Placed(w'.db, w'.servers[j]) && Holds(w'.db, w'.servers[j])
    {
      if j != i {
        OthersKept(w, op, j);
      }
    }
    assert forall j :: 0 <= j < |w.servers| && w.servers[j].st.iid.Some? ==>
        Holds(w.db, w.servers[j]) && w.servers[j].st.iid.value < |w.db.invocations|;
  }

  lemma StepKeepsInv(w: World, step: Step)
    requires Inv(w) && Enabled(w, step)
    ensures Inv(Apply(w, step))
  {
    match step
    case LedgerGrows(_) =>
    case Operator(op) => OperatorKeepsInv(w, op);
    case By(i, act) => ActStepKeepsInv(w, i, act);
  }

  lemma EmptyDbOk()
    ensures DbOk(EMPTY_DB)
  {
  }

  lemma InitialInv(w: World)
    requires Initial(w)
    ensures Inv(w)
  {
    EmptyDbOk();
    forall i | 0 <= i < |w.servers|
      ensures Placed(w.db, w.servers[i]) && Holds(w.db, w.servers[i]) && w.servers[i].st.iid.None?
    {
      assert NeverStarted(w.servers[i]);
    }
  }

  /** The invariant holds in every world of every run. */
  lemma {:induction false} RunInv(t: Trace, n: nat)
    requires IsRun(t) && n < |t.worlds|
    ensures Inv(t.worlds[n])
  {
    if n == 0 {
      InitialInv(t.worlds[0]);
    } else {
      RunInv(t, n - 1);
      StepKeepsInv(t.worlds[n - 1], t.steps[n - 1]);
    }
  }
}
