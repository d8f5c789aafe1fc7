/**
 * The blocks stored under an invocation id are consecutive from the invocation's start block on, in every run. So
 * `can_provide_block` (fog/recovery_db_iface/src/types.rs:153-176) is exact: a decommissioned invocation can provide
 * precisely the blocks stored under it.
 */
module InvocationRows {
  import opened RecoveryTables
  import opened TableLaws
  import opened ControllerState
  import opened IngestProtocol
  import opened Contiguity
  import opened ContiguityRuns
  import opened Invocations
  import opened EventPaging

  /** What is stored under the id is an interval that begins with `start`. */
  ghost predicate FromStart(db: Db, iid: InvocationId, start: nat) {
    forall b: nat :: InvocationHasRow(db, iid, b) ==>
      start <= b && forall x: nat :: start <= x <= b ==> InvocationHasRow(db, iid, x)
  }

  /** All from the invocation's start up to here is stored under it. */
  ghost predicate NextUnder(db: Db, iid: InvocationId, next: nat) {
    && iid < |db.invocations| && db.invocations[iid].startBlock <= next
    && (next == db.invocations[iid].startBlock || InvocationHasRow(db, iid, next - 1))
  }

  ghost predicate OwnsRows(db: Db, s: Server) {
    && (s.st.iid.Some? ==> NextUnder(db, s.st.iid.value, s.st.nextBlockIndex))
    && (s.pc.Committed? && s.pc.won ==> s.st.iid.Some? && InvocationHasRow(db, s.st.iid.value, s.pc.block))
  }

  ghost predicate RowsInv(w: World) {
    && (forall iid :: 0 <= iid < |w.db.invocations| ==> FromStart(w.db, iid, w.db.invocations[iid].startBlock))
    && (forall i :: 0 <= i < |w.servers| ==> OwnsRows(w.db, w.servers[i]))
  }

  lemma RowStays(db: Db, db': Db, iid: InvocationId, block: nat)
    requires db.blocks <= db'.blocks && InvocationHasRow(db, iid, block)
    ensures InvocationHasRow(db', iid, block)
  {
    var r :| 0 <= r < |db.blocks| && db.blocks[r].iid == iid && db.blocks[r].block == block;
    assert db'.blocks[r] == db.blocks[r];
  }

  lemma OwnsStill(db: Db, db': Db, s: Server)
    requires Extends(db, db') && OwnsRows(db, s)
    ensures OwnsRows(db', s)
  {
    if s.st.iid.Some? && s.st.nextBlockIndex > 0 && InvocationHasRow(db, s.st.iid.value, s.st.nextBlockIndex - 1) {
      RowStays(db, db', s.st.iid.value, s.st.nextBlockIndex - 1);
    }
    if s.pc.Committed? && s.pc.won {
      RowStays(db, db', s.st.iid.value, s.pc.block);
    }
  }

  /** No new row under this id. */
  lemma FromStartStill(db: Db, db': Db, iid: InvocationId, start: nat)
    requires db.blocks <= db'.blocks && FromStart(db, iid, start)
    requires forall r :: |db.blocks| <= r < |db'.blocks| ==> db'.blocks[r].iid != iid
    ensures FromStart(db', iid, start)
  {
    forall b: nat
      ensures InvocationHasRow(db', iid, b) <==> InvocationHasRow(db, iid, b)
    {
      if InvocationHasRow(db, iid, b) {
        RowStays(db, db', iid, b);
      }
      if InvocationHasRow(db', iid, b) {
        var r :| 0 <= r < |db'.blocks| && db'.blocks[r].iid == iid && db'.blocks[r].block == b;
        assert db'.blocks[r] == db.blocks[r];
      }
    }
  }

  /** The next block is stored under the id. */
  lemma FromStartGrows(db: Db, db': Db, iid: InvocationId, next: nat)
    requires NextUnder(db, iid, next) && FromStart(db, iid, db.invocations[iid].startBlock)
    requires |db'.blocks| == |db.blocks| + 1 && db.blocks <= db'.blocks
    requires db'.blocks[|db.blocks|].iid == iid && db'.blocks[|db.blocks|].block == next
    ensures FromStart(db', iid, db.invocations[iid].startBlock)
  {
    var start := db.invocations[iid].startBlock;
    forall b: nat | InvocationHasRow(db', iid, b)
      ensures start <= b && forall x: nat :: start <= x <= b ==> InvocationHasRow(db', iid, x)
    {
      var r :| 0 <= r < |db'.blocks| && db'.blocks[r].iid == iid && db'.blocks[r].block == b;
      assert r < |db.blocks| ==> db'.blocks[r] == db.blocks[r];
      assert r < |db.blocks| ==> InvocationHasRow(db, iid, b);
      forall x: nat | start <= x <= b
        ensures InvocationHasRow(db', iid, x)
      {
        if InvocationHasRow(db, iid, x) {
          RowStays(db, db', iid, x);
        } else {
          assert x == next;
        }
      }
    }
  }

  // ---- every step keeps it ----------------------------------------------------------------------------------------

  /** A row is stored only by a commit, for the block the server is at and under the id it holds. */
  lemma StepAddsNext(w: World, step: Step)
    requires Inv(w) && Enabled(w, step)
    ensures var blocks' := Apply(w, step).db.blocks;
            || blocks' == w.db.blocks
            || (&& step.By? && step.act.AAddBlock? && w.servers[step.id].st.iid.Some?
                && |blocks'| == |w.db.blocks| + 1 && w.db.blocks <= blocks'
                && blocks'[|w.db.blocks|].iid == w.servers[step.id].st.iid.value
                && blocks'[|w.db.blocks|].block == w.servers[step.id].st.nextBlockIndex)
  {
    StepIsOp(w, step);
    if step.By? {
      assert Placed(w.db, w.servers[step.id]);
    }
  }

  lemma StepKeepsIntervals(w: World, step: Step, iid: InvocationId)
    requires Inv(w) && RowsInv(w) && Enabled(w, step) && iid < |Apply(w, step).db.invocations|
    ensures FromStart(Apply(w, step).db, iid, Apply(w, step).db.invocations[iid].startBlock)
  {
    var db, db' := w.db, Apply(w, step).db;
    StepIsOp(w, step);
    ApplyExtends(db, StepOp(w, step));
    StepAddsNext(w, step);
    if iid >= |db.invocations| {
      StepKeepsInv(w, step);
      assert forall r :: 0 <= r < |db.blocks| ==> db.blocks[r].iid < |db.invocations|;
      NoneUnder(db, db', iid);
    } else if db'.blocks != db.blocks && db'.blocks[|db.blocks|].iid == iid {
      assert OwnsRows(db, w.servers[step.id]);
      FromStartGrows(db, db', iid, w.servers[step.id].st.nextBlockIndex);
    } else {
      FromStartStill(db, db', iid, db.invocations[iid].startBlock);
    }
  }

  lemma NoneUnder(db: Db, db': Db, iid: InvocationId)
    requires DbInv(db) && |db.invocations| <= iid < |db'.invocations| && db.blocks <= db'.blocks
    requires forall r :: |db.blocks| <= r < |db'.blocks| ==> db'.blocks[r].iid < |db.invocations|
    ensures FromStart(db', iid, db'.invocations[iid].startBlock)
  {
    forall r | 0 <= r < |db'.blocks|
      ensures db'.blocks[r].iid != iid
    {
      if r < |db.blocks| {
        assert db'.blocks[r] == db.blocks[r];
      }
    }
  }

  predicate Moves(act: Action) {
    act.ATakeInvocation? || act.ARecordRotation? || act.AAddBlock? || act.AFinish?
  }

  /** Other actions leave the id and the block it is for alone, or drop the id. */
  lemma OthersKeepPlace(w: World, i: ServerId, act: Action)
    requires Inv(w) && Enabled(w, By(i, act)) && !Moves(act)
    ensures var s, s' := w.servers[i], Act(w, i, act).server;
            && (s'.st.iid.Some? ==> s'.st.iid == s.st.iid && s'.st.nextBlockIndex == s.st.nextBlockIndex)
            && (s'.pc.Committed? ==> s'.pc == s.pc && s'.st.iid == s.st.iid)
  {
    assert Placed(w.db, w.servers[i]) && Holds(w.db, w.servers[i]);
  }

  lemma CommitOwns(w: World, i: ServerId, out: Outcome)
    requires Inv(w) && Enabled(w, By(i, AAddBlock(out))) && OwnsRows(w.db, w.servers[i])
    requires OwnsRows(Act(w, i, AAddBlock(out)).db, w.servers[i])
    ensures OwnsRows(Act(w, i, AAddBlock(out)).db, Act(w, i, AAddBlock(out)).server)
  {
    var s, r := w.servers[i], Act(w, i, AAddBlock(out));
    assert Placed(w.db, s) && Holds(w.db, s);
    if r.server.pc.Committed? && r.server.pc.won {
      assert r.db.blocks[|w.db.blocks|].iid == s.st.iid.value && r.db.blocks[|w.db.blocks|].block == s.pc.block;
    }
  }

  lemma MovesOwn(w: World, i: ServerId, act: Action)
    requires Inv(w) && Enabled(w, By(i, act)) && Moves(act) && !act.AAddBlock?
    requires OwnsRows(Act(w, i, act).db, w.servers[i])
    ensures OwnsRows(Act(w, i, act).db, Act(w, i, act).server)
  {
    assert Placed(w.db, w.servers[i]) && Holds(w.db, w.servers[i]);
  }

  lemma ActKeepsOwnRows(w: World, i: ServerId, act: Action)
    requires Inv(w) && RowsInv(w) && Enabled(w, By(i, act))
    ensures OwnsRows(Act(w, i, act).db, Act(w, i, act).server)
  {
    assert OwnsRows(w.db, w.servers[i]);
    ActIsOp(w, i, act);
    ApplyExtends(w.db, ActOp(w, i, act));
    OwnsStill(w.db, Act(w, i, act).db, w.servers[i]);
    if act.AAddBlock? {
      CommitOwns(w, i, act.out);
    } else if Moves(act) {
      MovesOwn(w, i, act);
    } else {
      OthersKeepPlace(w, i, act);
    }
  }

  lemma StepKeepsRowsInv(w: World, step: Step)
    requires Inv(w) && RowsInv(w) && Enabled(w, step)
    ensures RowsInv(Apply(w, step))
  {
    var w' := Apply(w, step);
    forall iid | 0 <= iid < |w'.db.invocations|
      ensures FromStart(w'.db, iid, w'.db.invocations[iid].startBlock)
    {
      StepKeepsIntervals(w, step, iid);
    }
    StepIsOp(w, step);
    ApplyExtends(w.db, StepOp(w, step));
    forall i | 0 <= i < |w.servers|
      ensures OwnsRows(w'.db, w'.servers[i])
    {
      if step.By? && step.id == i {
        ActKeepsOwnRows(w, i, step.act);
      } else {
        OwnsStill(w.db, w'.db, w.servers[i]);
      }
    }
  }

  lemma {:induction false} RunRowsInv(t: Trace, n: nat)
    requires IsRun(t) && n < |t.worlds|
    ensures RowsInv(t.worlds[n])
  {
    if n > 0 {
      RunRowsInv(t, n - 1);
      RunInv(t, n - 1);
      StepKeepsRowsInv(t.worlds[n - 1], t.steps[n - 1]);
    }
  }

  /** An invocation that is not decommissioned can provide every block from its start block on; a decommissioned one
      exactly the blocks stored under it. */
  lemma CanProvideIff(t: Trace, n: nat, iid: InvocationId, block: nat)
    requires IsRun(t) && n < |t.worlds| && iid < |t.worlds[n].db.invocations|
    ensures var db := t.worlds[n].db;
            RangeOf(db, iid).CanProvideBlock(block) <==>
            if db.invocations[iid].decommissioned then InvocationHasRow(db, iid, block)
            else db.invocations[iid].startBlock <= block
  {
    var db := t.worlds[n].db;
    RunRowsInv(t, n);
    LastIngestedMeans(db.blocks, iid);
    assert FromStart(db, iid, db.invocations[iid].startBlock);
    var last := LastIngested(db.blocks, iid);
    if last.Some? {
      assert InvocationHasRow(db, iid, last.value);
    }
    if InvocationHasRow(db, iid, block) {
      var r :| 0 <= r < |db.blocks| && db.blocks[r].iid == iid && db.blocks[r].block == block;
      assert db.blocks[r].block <= last.value;
    }
  }

  /** The first block stored under an invocation is its start block. */
  lemma FirstBlockIsStart(t: Trace, n: nat, iid: InvocationId, block: nat)
    requires IsRun(t) && n < |t.worlds| && iid < |t.worlds[n].db.invocations|
    requires InvocationHasRow(t.worlds[n].db, iid, block)
    ensures var db := t.worlds[n].db;
            && db.invocations[iid].startBlock <= block
            && forall b: nat :: db.invocations[iid].startBlock <= b <= block ==> InvocationHasRow(db, iid, b)
  {
    RunRowsInv(t, n);
    assert FromStart(t.worlds[n].db, iid, t.worlds[n].db.invocations[iid].startBlock);
  }
}
