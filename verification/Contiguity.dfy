/**
 * The blocks stored for an ingress key always form one interval starting at the key's start block,
 * every active server stands inside that interval or just past its end, and every ingest
 * invocation has at most one owner (fog/ingest/server/src/controller.rs, over all interleavings).
 */
module Contiguity {
  import opened Prelude
  import opened FogView
  import opened RecoveryTables
  import opened TableLaws
  import opened IngestProtocol

  // ---- the blocks scanned with one key ----------------------------------------------------------

  /** Block numbers stored for a key, in commit order. */
  function Scanned(blocks: seq<BlockRow>, key: IngressKey): seq<nat> {
    if |blocks| == 0 then []
    else
      var row := blocks[|blocks| - 1];
      var rest := Scanned(blocks[..|blocks| - 1], key);
      if row.key == key then rest + [row.block] else rest
  }

  lemma ScannedAppend(blocks: seq<BlockRow>, row: BlockRow, key: IngressKey)
    ensures Scanned(blocks + [row], key) == if row.key == key then Scanned(blocks, key) + [row.block]
              else Scanned(blocks, key)
  {
    assert (blocks + [row])[..|blocks|] == blocks;
  }

  lemma {:induction false} ScannedMember(blocks: seq<BlockRow>, key: IngressKey, block: nat)
    ensures block in Scanned(blocks, key) <==> HasRow(blocks, key, block)
  {
    if |blocks| > 0 {
      var front, row := blocks[..|blocks| - 1], blocks[|blocks| - 1];
      ScannedMember(front, key, block);
      if HasRow(front, key, block) {
        var i :| 0 <= i < |front| && front[i].key == key && front[i].block == block;
        assert blocks[i] == front[i];
      }
      if HasRow(blocks, key, block) && !(row.key == key && row.block == block) {
        var i :| 0 <= i < |blocks| && blocks[i].key == key && blocks[i].block == block;
        assert front[i] == blocks[i];
      }
    }
  }

  lemma {:induction false} ScannedGrows(blocks: seq<BlockRow>, blocks': seq<BlockRow>, key: IngressKey)
    requires blocks <= blocks'
    ensures Scanned(blocks, key) <= Scanned(blocks', key)
    decreases |blocks'|
  {
    if blocks != blocks' {
      ScannedGrows(blocks, blocks'[..|blocks'| - 1], key);
    }
  }

  ghost predicate KeyContiguous(db: Db, key: IngressKey)
    requires key in db.keys
  {
    forall j :: 0 <= j < |Scanned(db.blocks, key)| ==> Scanned(db.blocks, key)[j] == db.keys[key].startBlock + j
  }

  /** The k-th block committed for a key is start_block + k. */
  ghost predicate Contiguous(db: Db) {
    forall key :: key in db.keys ==> KeyContiguous(db, key)
  }

  function ScanEnd(db: Db, key: IngressKey): nat
    requires key in db.keys
  {
    db.keys[key].startBlock + |Scanned(db.blocks, key)|
  }

  /** Contiguity in the words of the queries: the stored blocks are exactly [start, end), and the
      last scanned block is end - 1, or none. */
  lemma ContiguousMeans(db: Db, key: IngressKey, block: nat)
    requires key in db.keys && KeyContiguous(db, key)
    ensures HasRow(db.blocks, key, block) <==> db.keys[key].startBlock <= block < ScanEnd(db, key)
    ensures LastScanned(db.blocks, key) ==
            if Scanned(db.blocks, key) == [] then None else Some(ScanEnd(db, key) - 1)
  {
    ScannedMember(db.blocks, key, block);
    var s := Scanned(db.blocks, key);
    if db.keys[key].startBlock <= block < ScanEnd(db, key) {
      assert s[block - db.keys[key].startBlock] == block;
    }
    LastOfAscending(db.blocks, key, db.keys[key].startBlock);
  }

  lemma {:induction false} LastOfAscending(blocks: seq<BlockRow>, key: IngressKey, start: nat)
    requires forall j :: 0 <= j < |Scanned(blocks, key)| ==> Scanned(blocks, key)[j] == start + j
    ensures LastScanned(blocks, key) == if Scanned(blocks, key) == [] then None
              else Some(start + |Scanned(blocks, key)| - 1)
  {
    if |blocks| > 0 {
      var front := blocks[..|blocks| - 1];
      assert forall j :: 0 <= j < |Scanned(front, key)| ==> Scanned(front, key)[j] == Scanned(blocks, key)[j];
      LastOfAscending(front, key, start);
      if blocks[|blocks| - 1].key == key {
        assert Scanned(blocks, key)[|Scanned(front, key)|] == blocks[|blocks| - 1].block;
      }
    }
  }

  lemma {:induction false} NoRowsScannedEmpty(blocks: seq<BlockRow>, key: IngressKey)
    requires forall i :: 0 <= i < |blocks| ==> blocks[i].key != key
    ensures Scanned(blocks, key) == []
  {
    if |blocks| > 0 {
      NoRowsScannedEmpty(blocks[..|blocks| - 1], key);
    }
  }

  // ---- where a server may stand ---------------------------------------------------------------------

  /** A scanner at block n of a key either extends the key's interval by one or repeats a stored block. */
  ghost predicate AtFrontier(db: Db, key: IngressKey, n: nat) {
    key in db.keys && db.keys[key].startBlock <= n <= ScanEnd(db, key)
  }

  /** The state file pairs a summary with the sealed key of the same ingress key, and an Active
      summary could be resumed now. */
  ghost predicate FileOk(db: Db, file: Option<StateFile>) {
    file.Some? ==>
      && file.value.sealedKey == file.value.summary.ingress
      && (file.value.summary.mode.Active? ==> AtFrontier(db, file.value.sealedKey, file.value.summary.nextBlockIndex))
  }

  ghost predicate PhaseOk(db: Db, key: IngressKey, phase: ActivatePhase) {
    match phase
    case KeyKnown(start) => key in db.keys && start == db.keys[key].startBlock
    case Publishing(start) => AtFrontier(db, key, start)
    case _ => true
  }

  ghost predicate PcOk(db: Db, s: Server) {
    match s.pc
    case Ready => true
    case Activating(_, phase) => s.run.Up? && s.st.mode.Idle? && PhaseOk(db, s.enc.ingress, phase)
    case Reported => s.st.mode.Active?
    case Scanning(block, _, _, _) => s.st.mode.Active? && block == s.st.nextBlockIndex
    case Rotating(block, _, _, _, egress) => s.st.mode.Active? && block == s.st.nextBlockIndex
    case Committed(block, _) =>
      s.st.mode.Active? && block == s.st.nextBlockIndex && HasRow(db.blocks, s.enc.ingress, block)
    case GoingIdle => s.run.Up? && s.st.mode.Idle?
    case Rekeying => s.run.Up? && s.st.mode.Idle?
    case Restoring(_) =>
      s.run.Booting? && s.st.mode.Idle? && s.file.Some? && s.file.value.summary.mode.Active?
      && s.enc.ingress == s.file.value.sealedKey
  }

  ghost predicate Placed(db: Db, s: Server) {
    && (s.st.mode.Active? ==> s.run.Up? && AtFrontier(db, s.enc.ingress, s.st.nextBlockIndex))
    && (s.run.Down? ==> s.pc.Ready?)
    && (s.run.Booting? ==> s.pc.Restoring?)
    && FileOk(db, s.file)
    && PcOk(db, s)
  }

  /** Only a server that is not idle, or is just dropping it, holds an invocation id; the id is for
      its ingress key, starts no later than its next block, and is still commissioned unless the
      server is in the middle of replacing it. */
  ghost predicate Holds(db: Db, s: Server) {
    && (s.st.mode.Idle? && !s.pc.GoingIdle? ==> s.st.iid.None?)
    && (s.pc.Scanning? || s.pc.Rotating? ==> s.st.iid.Some?)
    && (s.st.iid.Some? ==>
          && s.st.iid.value < |db.invocations|
          && db.invocations[s.st.iid.value].key == s.enc.ingress
          && db.invocations[s.st.iid.value].startBlock <= s.st.nextBlockIndex
          && (s.pc.Rotating? || !db.invocations[s.st.iid.value].decommissioned))
  }

  /** No row precedes the start block of the invocation that wrote it. */
  ghost predicate RowStarts(db: Db) {
    forall i :: 0 <= i < |db.blocks| ==>
      db.blocks[i].iid < |db.invocations| && db.invocations[db.blocks[i].iid].startBlock <= db.blocks[i].block
  }

  ghost predicate OwnersDistinct(servers: seq<Server>) {
    forall i, j :: 0 <= i < |servers| && 0 <= j < |servers| && i != j && servers[i].st.iid.Some? ==>
      servers[i].st.iid != servers[j].st.iid
  }

  ghost predicate DbOk(db: Db) {
    DbInv(db) && Contiguous(db) && RowStarts(db)
  }

  ghost predicate Inv(w: World) {
    && DbOk(w.db)
    && (forall i :: 0 <= i < |w.servers| ==> Placed(w.db, w.servers[i]) && Holds(w.db, w.servers[i]))
    && OwnersDistinct(w.servers)
  }

  // ---- other servers' transactions do not disturb a server ---------------------------------------------

  lemma FrontierStable(db: Db, db': Db, key: IngressKey, n: nat)
    requires Extends(db, db') && AtFrontier(db, key, n)
    ensures AtFrontier(db', key, n)
  {
    ScannedGrows(db.blocks, db'.blocks, key);
  }

  lemma PlacedStable(db: Db, db': Db, s: Server)
    requires Extends(db, db') && Placed(db, s)
    ensures Placed(db', s)
  {
    if s.st.mode.Active? {
      FrontierStable(db, db', s.enc.ingress, s.st.nextBlockIndex);
    }
    if s.file.Some? && s.file.value.summary.mode.Active? {
      FrontierStable(db, db', s.file.value.sealedKey, s.file.value.summary.nextBlockIndex);
    }
    if s.pc.Activating? && s.pc.phase.Publishing? {
      FrontierStable(db, db', s.enc.ingress, s.pc.phase.startBlock);
    }
    if s.pc.Committed? {
      var i :| 0 <= i < |db.blocks| && db.blocks[i].key == s.enc.ingress && db.blocks[i].block == s.pc.block;
      assert db'.blocks[i] == db.blocks[i];
    }
  }

  /** The transaction decommissions this invocation. */
  predicate Decommissions(op: DbOp, iid: InvocationId) {
    op == OpDecommission(iid) || (op.OpNewInvocation? && op.prev == Some(iid))
  }

  lemma OnlyDecommissions(db: Db, op: DbOp, iid: InvocationId)
    requires iid < |db.invocations| && !Decommissions(op, iid)
    ensures iid < |DbApply(db, op).invocations| && DbApply(db, op).invocations[iid] == db.invocations[iid]
  {
  }

  lemma HoldsStable(db: Db, op: DbOp, s: Server)
    requires Holds(db, s)
    requires s.st.iid.Some? ==> !Decommissions(op, s.st.iid.value)
    ensures Holds(DbApply(db, op), s)
  {
    if s.st.iid.Some? {
      OnlyDecommissions(db, op, s.st.iid.value);
    }
  }

  // ---- the transactions of the protocol keep the tables in order ------------------------------------------

  /** What the protocol guarantees about a block it tries to add. */
  ghost predicate BlockInOrder(db: Db, op: DbOp) {
    op.OpAddBlock? ==>
      && op.iid < |db.invocations|
      && db.invocations[op.iid].startBlock <= op.block
      && AtFrontier(db, db.invocations[op.iid].key, op.block)
  }

  lemma AddBlockKeepsContiguous(db: Db, op: DbOp)
    requires DbOk(db) && op.OpAddBlock? && BlockInOrder(db, op)
    ensures Contiguous(DbApply(db, op)) && RowStarts(DbApply(db, op))
  {
    var db' := DbApply(db, op);
    var key := db.invocations[op.iid].key;
    AlreadyScannedIff(db, op.iid, op.block, op.cumulative, op.timestamp, op.records);
    ContiguousMeans(db, key, op.block);
    if db' != db {
      var row := BlockRow(op.iid, key, op.block, op.cumulative, op.timestamp, op.records);
      forall k | k in db'.keys
        ensures KeyContiguous(db', k)
      {
        ScannedAppend(db.blocks, row, k);
        assert KeyContiguous(db, k);
      }
    }
  }

  lemma NewKeyKeepsContiguous(db: Db, op: DbOp)
    requires DbOk(db) && op.OpNewKey?
    ensures Contiguous(DbApply(db, op))
  {
    var db' := DbApply(db, op);
    forall k | k in db'.keys
      ensures KeyContiguous(db', k)
    {
      if k in db.keys {
        assert KeyContiguous(db, k);
      } else {
        NoRowsScannedEmpty(db.blocks, k);
      }
    }
  }

  lemma ApplyKeepsDbOk(db: Db, op: DbOp)
    requires DbOk(db) && BlockInOrder(db, op)
    ensures DbOk(DbApply(db, op))
  {
    var db' := DbApply(db, op);
    ApplyKeepsInv(db, op);
    ApplyExtends(db, op);
    if op.OpAddBlock? {
      AddBlockKeepsContiguous(db, op);
    } else if op.OpNewKey? {
      NewKeyKeepsContiguous(db, op);
    } else {
      assert db'.blocks == db.blocks && db'.keys.Keys == db.keys.Keys;
      forall k | k in db'.keys
        ensures KeyContiguous(db', k)
      {
        assert KeyContiguous(db, k);
      }
    }
  }
}
