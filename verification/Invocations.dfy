/**
 * Ownership of ingest invocations over whole runs, and what the view server may conclude from
 * `can_provide_block` (fog/recovery_db_iface/src/types.rs:153-176).
 */
module Invocations {
  import opened Prelude
  import opened RecoveryTables
  import opened TableLaws
  import opened ControllerState
  import opened IngestProtocol
  import opened Contiguity
  import opened ContiguityRuns

  ghost predicate InvocationHasRow(db: Db, iid: InvocationId, block: nat) {
    exists r :: 0 <= r < |db.blocks| && db.blocks[r].iid == iid && db.blocks[r].block == block
  }

  /** An idle server that answers RPCs holds no invocation id, and no id has two holders. */
  lemma OneOwner(t: Trace, n: nat, i: ServerId, j: ServerId)
    requires IsRun(t) && n < |t.worlds| && i < |t.worlds[n].servers| && j < |t.worlds[n].servers|
    ensures var s, r := t.worlds[n].servers[i], t.worlds[n].servers[j];
            && (Serving(s) && s.st.mode.Idle? ==> s.st.iid.None?)
            && (s.st.iid.Some? && s.st.iid == r.st.iid ==> i == j)
  {
    RunInv(t, n);
    assert Holds(t.worlds[n].db, t.worlds[n].servers[i]);
  }

  /** All rows of an invocation are for its ingress key, inside that key's scanned interval, and not
      before the invocation's start block. */
  lemma RowsOfInvocation(t: Trace, n: nat, r: nat)
    requires IsRun(t) && n < |t.worlds| && r < |t.worlds[n].db.blocks|
    ensures var db := t.worlds[n].db;
            var row := db.blocks[r];
            && row.iid < |db.invocations|
            && row.key == db.invocations[row.iid].key && row.key in db.keys
            && db.invocations[row.iid].startBlock <= row.block
            && db.keys[row.key].startBlock <= row.block < ScanEnd(db, row.key)
  {
    RunInv(t, n);
    var db := t.worlds[n].db;
    ContiguousMeans(db, db.blocks[r].key, db.blocks[r].block);
  }

  /** No server can add a block with this id any more: nobody holds it, or it is decommissioned. */
  ghost predicate Retired(w: World, iid: InvocationId) {
    && iid < |w.db.invocations|
    && (w.db.invocations[iid].decommissioned
        || forall i :: 0 <= i < |w.servers| ==> w.servers[i].st.iid != Some(iid))
  }

  lemma StepKeepsRetired(w: World, step: Step, iid: InvocationId)
    requires Inv(w) && Enabled(w, step) && Retired(w, iid)
    ensures Retired(Apply(w, step), iid)
  {
    StepIsOp(w, step);
    ApplyExtends(w.db, StepOp(w, step));
    if step.By? {
      ActKeeps(w, step.id, step.act);
      assert Holds(w.db, w.servers[step.id]);
    }
  }

  /** Rows of the id were there before. */
  lemma NoNewRow(db': Db, db: Db, iid: InvocationId, b: nat)
    requires db.blocks <= db'.blocks
    requires db'.blocks == db.blocks || (|db'.blocks| == |db.blocks| + 1 && db'.blocks[|db.blocks|].iid != iid)
    requires InvocationHasRow(db', iid, b)
    ensures InvocationHasRow(db, iid, b)
  {
    var r :| 0 <= r < |db'.blocks| && db'.blocks[r].iid == iid && db'.blocks[r].block == b;
    assert db'.blocks[r] == db.blocks[r];
  }

  lemma StepAddsNoRow(w: World, step: Step, w': World, iid: InvocationId, b: nat)
    requires Inv(w) && Enabled(w, step) && Retired(w, iid) && w' == Apply(w, step)
    ensures Retired(w', iid)
    ensures InvocationHasRow(w'.db, iid, b) ==> InvocationHasRow(w.db, iid, b)
  {
    StepKeepsRetired(w, step, iid);
    StepIsOp(w, step);
    ApplyExtends(w.db, StepOp(w, step));
    RowsFromOwners(w, step, iid);
    if InvocationHasRow(w'.db, iid, b) {
      NoNewRow(w'.db, w.db, iid, b);
    }
  }

  /** A step that stores a block under an id is taken by the id's holder, and the id is commissioned. */
  lemma RowsFromOwners(w: World, step: Step, iid: InvocationId)
    requires Inv(w) && Enabled(w, step) && Retired(w, iid)
    ensures var blocks' := Apply(w, step).db.blocks;
            blocks' == w.db.blocks || (|blocks'| == |w.db.blocks| + 1 && blocks'[|w.db.blocks|].iid != iid)
  {
    StepIsOp(w, step);
    if step.By? {
      assert Holds(w.db, w.servers[step.id]) && Placed(w.db, w.servers[step.id]);
    }
  }

  /** A dropped, replaced or decommissioned id never receives another block. */
  lemma {:induction false} RetiredGetsNoRows(t: Trace, m: nat, n: nat, iid: InvocationId, block: nat)
    requires IsRun(t) && m <= n < |t.worlds| && Retired(t.worlds[m], iid)
    ensures Retired(t.worlds[n], iid)
    ensures InvocationHasRow(t.worlds[n].db, iid, block) ==> InvocationHasRow(t.worlds[m].db, iid, block)
    decreases n
  {
    if m < n {
      RetiredGetsNoRows(t, m, n - 1, iid, block);
      RunInv(t, n - 1);
      StepAddsNoRow(t.worlds[n - 1], t.steps[n - 1], t.worlds[n], iid, block);
    }
  }

  lemma {:induction false} LastIngestedBounds(blocks: seq<BlockRow>, iid: InvocationId, r: nat)
    requires r < |blocks| && blocks[r].iid == iid
    ensures LastIngested(blocks, iid).Some? && blocks[r].block <= LastIngested(blocks, iid).value
  {
    var front := blocks[..|blocks| - 1];
    if r < |front| {
      LastIngestedBounds(front, iid, r);
    }
  }

  /** Once `can_provide_block` is false for (id, block), no row for it ever appears. */
  lemma CannotProvideNeverAppears(t: Trace, m: nat, n: nat, iid: InvocationId, block: nat)
    requires IsRun(t) && m <= n < |t.worlds| && iid < |t.worlds[m].db.invocations|
    requires !RangeOf(t.worlds[m].db, iid).CanProvideBlock(block)
    ensures !InvocationHasRow(t.worlds[n].db, iid, block)
  {
    var db := t.worlds[m].db;
    if block < db.invocations[iid].startBlock {
      StartBlockFixed(t, m, n, iid);
      RunInv(t, n);
    } else {
      if InvocationHasRow(db, iid, block) {
        var r :| 0 <= r < |db.blocks| && db.blocks[r].iid == iid && db.blocks[r].block == block;
        LastIngestedBounds(db.blocks, iid, r);
      }
      RetiredGetsNoRows(t, m, n, iid, block);
    }
  }

  lemma {:induction false} StartBlockFixed(t: Trace, m: nat, n: nat, iid: InvocationId)
    requires IsRun(t) && m <= n < |t.worlds| && iid < |t.worlds[m].db.invocations|
    ensures iid < |t.worlds[n].db.invocations|
    ensures SameInvocation(t.worlds[m].db.invocations[iid], t.worlds[n].db.invocations[iid])
    decreases n
  {
    if m < n {
      StartBlockFixed(t, m, n - 1, iid);
      StepIsOp(t.worlds[n - 1], t.steps[n - 1]);
      ApplyExtends(t.worlds[n - 1].db, StepOp(t.worlds[n - 1], t.steps[n - 1]));
    }
  }
}
