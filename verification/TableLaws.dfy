/**
 * What every transaction of the recovery database keeps, whoever issues it and in whatever order:
 * referential integrity, append-only growth, the expiry discipline and first-writer-wins.
 */
module TableLaws {
  import opened Prelude
  import opened Coverage
  import opened FogView
  import opened RecoveryTables

  // ---- integrity ----------------------------------------------------------------------------

  ghost predicate InvocationsOk(db: Db) {
    && (forall i :: 0 <= i < |db.invocations| ==> db.invocations[i].key in db.keys)
    && (forall i, j :: 0 <= i < j < |db.invocations| ==> db.invocations[i].egress != db.invocations[j].egress)
    && (forall i :: 0 <= i < |db.invocations| ==>
          (db.invocations[i].decommissioned <==> DecommissionIngestInvocation(i) in db.events))
    && (forall i :: i >= |db.invocations| ==> DecommissionIngestInvocation(i) !in db.events)
  }

  ghost predicate RowsOk(db: Db) {
    && (forall i :: 0 <= i < |db.blocks| ==>
          && db.blocks[i].iid < |db.invocations|
          && db.blocks[i].key == db.invocations[db.blocks[i].iid].key
          && db.blocks[i].key in db.keys)
    && (forall i, j :: 0 <= i < j < |db.blocks| ==>
          db.blocks[i].key != db.blocks[j].key || db.blocks[i].block != db.blocks[j].block)
  }

  ghost predicate ReportsOk(db: Db) {
    forall id :: id in db.reports ==>
      && db.reports[id].key in db.keys
      && db.reports[id].pubkeyExpiry <= db.keys[db.reports[id].key].pubkeyExpiry
      && (db.reports[id].iid.Some? ==> db.reports[id].iid.value < |db.invocations|)
  }

  ghost predicate DbInv(db: Db) {
    InvocationsOk(db) && RowsOk(db) && ReportsOk(db)
  }

  lemma DecommissionKeepsInv(db: Db, iid: InvocationId)
    requires DbInv(db)
    ensures var r := Decommission(db, iid); r.Ok? ==> DbInv(r.value)
  {
    var r := Decommission(db, iid);
    if r.Ok? {
      var db' := r.value;
      assert db'.events[|db.events|] == DecommissionIngestInvocation(iid);
      forall i | 0 <= i
        ensures DecommissionIngestInvocation(i) in db'.events <==>
                i == iid || DecommissionIngestInvocation(i) in db.events
      {
      }
    }
  }

  lemma InsertKeepsInv(db: Db, key: IngressKey, egress: EgressKey, startBlock: nat)
    requires DbInv(db)
    ensures var r := InsertInvocation(db, key, egress, startBlock); r.Ok? ==> DbInv(r.value.0)
  {
    var r := InsertInvocation(db, key, egress, startBlock);
    if r.Ok? {
      var db' := r.value.0;
      forall i: nat
        ensures DecommissionIngestInvocation(i) in db'.events <==> DecommissionIngestInvocation(i) in db.events
      {
      }
      forall i | 0 <= i < |db.invocations|
        ensures db.invocations[i].egress != egress
      {
        assert db.invocations[i].egress in EgressKeys(db.invocations);
      }
    }
  }

  lemma ReportLostKeepsInv(db: Db, key: IngressKey)
    requires DbInv(db)
    ensures var r := ReportLost(db, key); r.Ok? ==> DbInv(r.value)
  {
    var r := ReportLost(db, key);
    if r.Ok? {
      forall i: nat
        ensures DecommissionIngestInvocation(i) in r.value.events <==> DecommissionIngestInvocation(i) in db.events
      {
      }
    }
  }

  /** Every transaction keeps the foreign keys, the uniqueness constraints and the report bound. */
  lemma {:induction false} ApplyKeepsInv(db: Db, op: DbOp)
    requires DbInv(db)
    ensures DbInv(DbApply(db, op))
  {
    match op
    case OpNone =>
    case OpNewKey(_, _) =>
    case OpRetire(_, _) =>
    case OpNewInvocation(prev, key, egress, startBlock) =>
      if prev.Some? {
        DecommissionKeepsInv(db, prev.value);
        var d := Decommission(db, prev.value);
        if d.Ok? {
          InsertKeepsInv(d.value, key, egress, startBlock);
        }
      } else {
        InsertKeepsInv(db, key, egress, startBlock);
      }
    case OpDecommission(iid) => DecommissionKeepsInv(db, iid);
    case OpAddBlock(_, _, _, _, _) =>
    case OpReportLost(key) => ReportLostKeepsInv(db, key);
    case OpSetReport(_, _, _, _) =>
    case OpRemoveReport(_) =>
  }

  // ---- growth -------------------------------------------------------------------------------

  ghost predicate SameInvocation(a: Invocation, b: Invocation) {
    a.key == b.key && a.egress == b.egress && a.startBlock == b.startBlock && (a.decommissioned ==> b.decommissioned)
  }

  ghost predicate KeyGrows(a: KeyStatus, b: KeyStatus) {
    && a.startBlock == b.startBlock
    && a.pubkeyExpiry <= b.pubkeyExpiry
    && (a.retired && b.retired ==> a.pubkeyExpiry == b.pubkeyExpiry)
    && (a.lost ==> b.lost)
  }

  /** What one transaction may do to the tables: keys and invocations stay, start blocks are fixed,
      the expiry never falls and is frozen while retired, rows and events are only appended. */
  ghost predicate Extends(db: Db, db': Db) {
    && (forall k :: k in db.keys ==> k in db'.keys && KeyGrows(db.keys[k], db'.keys[k]))
    && |db.invocations| <= |db'.invocations|
    && (forall i :: 0 <= i < |db.invocations| ==> SameInvocation(db.invocations[i], db'.invocations[i]))
    && db.blocks <= db'.blocks
    && db.events <= db'.events
  }

  /** Every transaction extends the tables: a stored row never changes and is never lost. */
  lemma ApplyExtends(db: Db, op: DbOp)
    ensures Extends(db, DbApply(db, op))
  {
  }

  /** The part of growth that composes over many transactions. */
  ghost predicate ExtendsMany(db: Db, db': Db) {
    && (forall k :: k in db.keys ==>
          && k in db'.keys
          && db.keys[k].startBlock == db'.keys[k].startBlock
          && db.keys[k].pubkeyExpiry <= db'.keys[k].pubkeyExpiry
          && (db.keys[k].lost ==> db'.keys[k].lost))
    && |db.invocations| <= |db'.invocations|
    && (forall i :: 0 <= i < |db.invocations| ==> SameInvocation(db.invocations[i], db'.invocations[i]))
    && db.blocks <= db'.blocks
    && db.events <= db'.events
  }

  /** Over any sequence of transactions: integrity holds, start blocks are fixed, no key's expiry
      ever falls and every row of the reports table stays within the expiry of its key. */
  lemma {:induction false} RunLaws(db: Db, ops: seq<DbOp>)
    requires DbInv(db)
    ensures DbInv(DbRun(db, ops)) && ExtendsMany(db, DbRun(db, ops))
  {
    if |ops| > 0 {
      var mid := DbRun(db, ops[..|ops| - 1]);
      RunLaws(db, ops[..|ops| - 1]);
      ApplyKeepsInv(mid, ops[|ops| - 1]);
      ApplyExtends(mid, ops[|ops| - 1]);
    }
  }

  /** While a key stays retired its expiry is frozen, whatever is published or reported. */
  lemma {:induction false} RetiredExpiryFrozen(db: Db, ops: seq<DbOp>, key: IngressKey)
    requires key in db.keys
    requires forall n :: 0 <= n <= |ops| ==> key in DbRun(db, ops[..n]).keys && DbRun(db, ops[..n]).keys[key].retired
    ensures key in DbRun(db, ops).keys && DbRun(db, ops).keys[key].pubkeyExpiry == db.keys[key].pubkeyExpiry
  {
    assert ops[..|ops|] == ops;
    if |ops| > 0 {
      var front := ops[..|ops| - 1];
      assert forall n :: 0 <= n <= |front| ==> front[..n] == ops[..n];
      RetiredExpiryFrozen(db, front, key);
      ApplyExtends(DbRun(db, front), ops[|ops| - 1]);
      assert front[..|front|] == front;
    }
  }

  // ---- first writer wins -----------------------------------------------------------------------

  /** get_tx_outs_by_block_and_key: the row of a (key, block) pair, if there is one. */
  ghost function RowOf(blocks: seq<BlockRow>, key: IngressKey, block: nat): Option<BlockRow> {
    if HasRow(blocks, key, block) then
      var i :| 0 <= i < |blocks| && blocks[i].key == key && blocks[i].block == block;
      Some(blocks[i])
    else None
  }

  lemma RowOfIs(db: Db, key: IngressKey, block: nat, i: nat)
    requires RowsOk(db) && i < |db.blocks| && db.blocks[i].key == key && db.blocks[i].block == block
    ensures RowOf(db.blocks, key, block) == Some(db.blocks[i])
  {
  }

  /** Once a (key, block) row exists, no later sequence of transactions changes its records. */
  lemma FirstWriterWins(db: Db, ops: seq<DbOp>, key: IngressKey, block: nat)
    requires DbInv(db) && HasRow(db.blocks, key, block)
    ensures RowOf(DbRun(db, ops).blocks, key, block) == RowOf(db.blocks, key, block)
  {
    RunLaws(db, ops);
    var i :| 0 <= i < |db.blocks| && db.blocks[i].key == key && db.blocks[i].block == block;
    RowOfIs(db, key, block, i);
    RowOfIs(DbRun(db, ops), key, block, i);
  }

  /** add_block_data reports "already scanned" exactly when the key has that block, or the
      invocation does, which under referential integrity is the same thing. */
  lemma AlreadyScannedIff(db: Db, iid: InvocationId, block: nat, cumulative: nat, timestamp: nat,
                          records: seq<ETxOutRecord>)
    requires DbInv(db) && iid < |db.invocations|
    ensures var r := AddBlockData(db, iid, block, cumulative, timestamp, records);
            && r.Ok?
            && (r.value.1 <==> HasRow(db.blocks, db.invocations[iid].key, block))
            && (r.value.1 ==> r.value.0 == db)
            && (!r.value.1 ==> RowOf(r.value.0.blocks, db.invocations[iid].key, block)
                               == Some(BlockRow(iid, db.invocations[iid].key, block, cumulative, timestamp, records)))
  {
    var r := AddBlockData(db, iid, block, cumulative, timestamp, records);
    assert r.Ok?;
    if !r.value.1 {
      ApplyKeepsInv(db, OpAddBlock(iid, block, cumulative, timestamp, records));
      RowOfIs(r.value.0, db.invocations[iid].key, block, |db.blocks|);
    }
  }
}
