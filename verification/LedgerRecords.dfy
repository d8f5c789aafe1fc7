/**
 * The rows of the database say what the ledger says: the records of a stored (key, block) pair are
 * the block's outputs in order, each encrypted to its recipient and numbered with its position in
 * the ledger. Together with the rng theorem this gives the end-to-end guarantee to users.
 */
module LedgerRecords {
  import opened Prelude
  import opened FogView
  import opened RecoveryTables
  import opened IngestEnclave
  import opened ControllerState
  import opened IngestProtocol
  import opened Contiguity
  import opened ContiguityRuns
  import opened RngStreams
  import opened RngRuns

  predicate LedgerOk(ledger: seq<Block>) {
    forall b :: 0 <= b < |ledger| ==> |ledger[b].outputs| <= ledger[b].cumulativeTxoCount
  }

  /** The first `pos` outputs of a block, handed to the enclave as one chunk. */
  function Prefix(b: Block, block: nat, timestamp: nat, pos: nat): Chunk
    requires pos <= |b.outputs| <= b.cumulativeTxoCount
  {
    Chunk(block, b.cumulativeTxoCount - |b.outputs|, timestamp, b.outputs[..pos])
  }

  ghost predicate RowFaithful(ledger: seq<Block>, row: BlockRow)
    requires LedgerOk(ledger)
  {
    && row.block < |ledger|
    && row.cumulativeTxoCount == ledger[row.block].cumulativeTxoCount
    && Faithful(row.records, row.key, Prefix(ledger[row.block], row.block, row.timestamp, |ledger[row.block].outputs|))
  }

  ghost predicate PendingFaithful(ledger: seq<Block>, s: Server)
    requires LedgerOk(ledger)
  {
    && (s.pc.Reported? ==> s.st.nextBlockIndex < |ledger|)
    && (s.pc.Scanning? || s.pc.Rotating? ==>
          && s.pc.block < |ledger| && s.pc.pos <= |ledger[s.pc.block].outputs|
          && Faithful(s.pc.rows, s.enc.ingress, Prefix(ledger[s.pc.block], s.pc.block, s.pc.timestamp, s.pc.pos)))
  }

  ghost predicate LedgerInv(w: World) {
    && LedgerOk(w.ledger)
    && (forall r :: 0 <= r < |w.db.blocks| ==> RowFaithful(w.ledger, w.db.blocks[r]))
    && (forall i :: 0 <= i < |w.servers| ==> PendingFaithful(w.ledger, w.servers[i]))
  }

  /** The next chunk continues the prefix exactly where it ended. */
  lemma ChunkContinues(b: Block, block: nat, timestamp: nat, pos: nat, size: nat)
    requires pos <= |b.outputs| <= b.cumulativeTxoCount
    ensures var c := ChunkAt(b, block, timestamp, pos, size);
            && |c.outputs| == Min(size, |b.outputs| - pos) && pos + |c.outputs| <= |b.outputs|
            && Follows(Prefix(b, block, timestamp, pos), c)
            && Join(Prefix(b, block, timestamp, pos), c) == Prefix(b, block, timestamp, pos + |c.outputs|)
  {
    var end := Min(pos + size, |b.outputs|);
    assert b.outputs[..pos] + b.outputs[pos..end] == b.outputs[..end];
  }

  lemma AbsorbContinues(b: Block, block: nat, timestamp: nat, pos: nat, size: nat, rows: seq<ETxOutRecord>,
                        e: Enclave, strays: nat -> ViewKey)
    requires pos <= |b.outputs| <= b.cumulativeTxoCount
    requires Faithful(rows, e.ingress, Prefix(b, block, timestamp, pos))
    ensures var c := ChunkAt(b, block, timestamp, pos, size);
            && pos + |c.outputs| <= |b.outputs|
            && Faithful(rows + Absorb(e, c, strays).rows, e.ingress, Prefix(b, block, timestamp, pos + |c.outputs|))
  {
    var c := ChunkAt(b, block, timestamp, pos, size);
    ChunkContinues(b, block, timestamp, pos, size);
    AbsorbFaithful(e, c, strays);
    FaithfulJoin(rows, Prefix(b, block, timestamp, pos), Absorb(e, c, strays).rows, c, e.ingress);
  }

  lemma ChunkKeepsFaithful(ledger: seq<Block>, s: Server, outcome: EnclaveOutcome, strays: nat -> ViewKey)
    requires LedgerOk(ledger) && PendingFaithful(ledger, s) && Scannable(ledger, s) && !outcome.IngestFailed?
    ensures PendingFaithful(ledger, IngestChunk(ledger[s.pc.block], s, outcome, strays))
  {
    var e := if outcome.Rotated? then Enclave(s.enc.ingress, outcome.egress, map[]) else s.enc;
    AbsorbContinues(ledger[s.pc.block], s.pc.block, s.pc.timestamp, s.pc.pos, s.cfg.maxTransactions, s.pc.rows, e,
                    strays);
  }

  lemma IngestKeepsFaithful(w: World, i: ServerId, outcome: EnclaveOutcome, strays: nat -> ViewKey)
    requires LedgerInv(w) && i < |w.servers| && ActEnabled(w, i, AIngestChunk(outcome, strays))
    ensures PendingFaithful(w.ledger, Act(w, i, AIngestChunk(outcome, strays)).server)
  {
    assert PendingFaithful(w.ledger, w.servers[i]);
    if !outcome.IngestFailed? {
      ChunkKeepsFaithful(w.ledger, w.servers[i], outcome, strays);
    }
  }

  lemma OtherKeepsPending(w: World, i: ServerId, act: Action)
    requires i < |w.servers| && ActEnabled(w, i, act) && !act.AIngestChunk? && Placed(w.db, w.servers[i])
    requires LedgerOk(w.ledger) && PendingFaithful(w.ledger, w.servers[i])
    ensures PendingFaithful(w.ledger, Act(w, i, act).server)
  {
  }

  lemma ActKeepsPending(w: World, i: ServerId, act: Action)
    requires Inv(w) && LedgerInv(w) && i < |w.servers| && ActEnabled(w, i, act)
    ensures PendingFaithful(w.ledger, Act(w, i, act).server)
  {
    if act.AIngestChunk? {
      IngestKeepsFaithful(w, i, act.outcome, act.strays);
    } else {
      OtherKeepsPending(w, i, act);
    }
  }

  lemma ActKeepsRows(w: World, i: ServerId, act: Action)
    requires Inv(w) && LedgerInv(w) && i < |w.servers| && ActEnabled(w, i, act)
    ensures forall r :: 0 <= r < |Act(w, i, act).db.blocks| ==> RowFaithful(w.ledger, Act(w, i, act).db.blocks[r])
  {
    var s := w.servers[i];
    ActIsOp(w, i, act);
    if act.AAddBlock? {
      assert PendingFaithful(w.ledger, s) && Holds(w.db, s);
    } else {
      assert Act(w, i, act).db.blocks == w.db.blocks;
    }
  }

  lemma StepKeepsLedger(w: World, step: Step)
    requires Inv(w) && LedgerInv(w) && Enabled(w, step)
    ensures LedgerInv(Apply(w, step))
  {
    match step
    case LedgerGrows(b) =>
      var w' := Apply(w, step);
      forall r | 0 <= r < |w.db.blocks|
        ensures RowFaithful(w'.ledger, w'.db.blocks[r])
      {
        assert RowFaithful(w.ledger, w.db.blocks[r]);
      }
      forall i | 0 <= i < |w.servers|
        ensures PendingFaithful(w'.ledger, w'.servers[i])
      {
        assert PendingFaithful(w.ledger, w.servers[i]);
      }
    case Operator(_) =>
    case By(i, act) =>
      ActKeepsPending(w, i, act);
      ActKeepsRows(w, i, act);
  }

  lemma {:induction false} RunLedgerInv(t: Trace, n: nat)
    requires IsRun(t) && n < |t.worlds|
    ensures LedgerInv(t.worlds[n])
  {
    if n > 0 {
      RunLedgerInv(t, n - 1);
      RunInv(t, n - 1);
      StepKeepsLedger(t.worlds[n - 1], t.steps[n - 1]);
    }
  }

  // ---- what a row holds ---------------------------------------------------------------------------

  /** The outputs whose hints are not malformed, in order. */
  function Readable(outputs: seq<TxOut>, key: IngressKey): seq<TxOut> {
    if |outputs| == 0 then []
    else
      var front, last := Readable(outputs[..|outputs| - 1], key), outputs[|outputs| - 1];
      if last.hint == Sealed(key, None) then front else front + [last]
  }

  lemma {:induction false} FaithfulIsReadable(rows: seq<ETxOutRecord>, key: IngressKey, c: Chunk)
    requires Faithful(rows, key, c)
    ensures |rows| == |Readable(c.outputs, key)|
    ensures forall j :: 0 <= j < |rows| ==> rows[j].payload.txo == Readable(c.outputs, key)[j]
    decreases |c.outputs|
  {
    if |c.outputs| > 0 {
      var last := c.outputs[|c.outputs| - 1];
      FaithfulIsReadable(if last.hint == Sealed(key, None) then rows else rows[..|rows| - 1], key, Front(c));
    }
  }

  /** Every row has one record for each output of its block, in order, whoever the output is for; only outputs with
      malformed hints have none. */
  lemma OneRecordPerOutput(t: Trace, n: nat, r: nat)
    requires IsRun(t) && n < |t.worlds| && r < |t.worlds[n].db.blocks|
    ensures var row := t.worlds[n].db.blocks[r];
            && row.block < |t.worlds[n].ledger|
            && row.cumulativeTxoCount == t.worlds[n].ledger[row.block].cumulativeTxoCount
            && var outputs := Readable(t.worlds[n].ledger[row.block].outputs, row.key);
            && |row.records| == |outputs|
            && forall j :: 0 <= j < |row.records| ==> row.records[j].payload.txo == outputs[j]
  {
    RunLedgerInv(t, n);
    var row := t.worlds[n].db.blocks[r];
    assert RowFaithful(t.worlds[n].ledger, row);
    var b := t.worlds[n].ledger[row.block];
    var c := Prefix(b, row.block, row.timestamp, |b.outputs|);
    FaithfulIsReadable(row.records, row.key, c);
    assert c.outputs == b.outputs;
  }

  // ---- end to end -----------------------------------------------------------------------------------

  lemma {:induction false} KeysOfMember(rows: seq<ETxOutRecord>, j: nat)
    requires j < |rows|
    ensures rows[j].searchKey in KeysOf(rows, rows[j].searchKey.secret)
  {
    if j < |rows| - 1 {
      KeysOfMember(rows[..|rows| - 1], j);
    }
  }

  lemma {:induction false} PublishedMember(blocks: seq<BlockRow>, r: nat, j: nat)
    requires r < |blocks| && j < |blocks[r].records|
    ensures blocks[r].records[j].searchKey in Published(blocks, blocks[r].records[j].searchKey.secret)
  {
    KeysOfMember(blocks[r].records, j);
    if r < |blocks| - 1 {
      PublishedMember(blocks[..|blocks| - 1], r, j);
    }
  }

  /** Record j of row r is output p of the block, encrypted to `view` and numbered with its position in
      the ledger; its search key is output q of the rng with `egress`, and every earlier output of that
      rng is in the database too, so a user who walks the rng from 0 meets it before the first miss. */
  ghost predicate Reaches(db: Db, b: Block, block: nat, p: nat, view: ViewKey, r: int, j: int, egress: EgressKey,
                          q: nat)
    requires p < |b.outputs|
  {
    && 0 <= r < |db.blocks| && 0 <= j < |db.blocks[r].records|
    && var record, secret := db.blocks[r].records[j], SharedSecret(egress, view);
    && record.payload.view == view
    && record.payload.txo == b.outputs[p]
    && record.payload.meta.globalIndex == b.cumulativeTxoCount - |b.outputs| + p
    && record.payload.meta.blockIndex == block && record.payload.meta.timestamp == db.blocks[r].timestamp
    && q < |Published(db.blocks, secret)|
    && record.searchKey == Output(secret, q)
    && Published(db.blocks, secret) == Outputs(secret, |Published(db.blocks, secret)|)
  }

  /** The record of an output in the row of its block. */
  ghost predicate InRow(row: BlockRow, b: Block, p: nat, view: ViewKey, j: int)
    requires p < |b.outputs|
  {
    && 0 <= j < |row.records| && row.records[j].searchKey.secret.view == view
    && var payload := row.records[j].payload;
    && payload.view == view && payload.txo == b.outputs[p]
    && payload.meta.globalIndex == b.cumulativeTxoCount - |b.outputs| + p
    && payload.meta.blockIndex == row.block && payload.meta.timestamp == row.timestamp
  }

  lemma OutputIsInRow(ledger: seq<Block>, row: BlockRow, p: nat, view: ViewKey) returns (j: nat)
    requires LedgerOk(ledger) && RowFaithful(ledger, row) && p < |ledger[row.block].outputs|
    requires ledger[row.block].outputs[p].hint == Sealed(row.key, Some(view))
    ensures InRow(row, ledger[row.block], p, view, j)
  {
    var b := ledger[row.block];
    var c := Prefix(b, row.block, row.timestamp, |b.outputs|);
    FaithfulFinds(row.records, row.key, c, p, view);
    j :| 0 <= j < |row.records| && row.records[j].payload == CryptoBox(view, c.outputs[p], MetaOf(c, p))
      && row.records[j].searchKey.secret.view == view;
  }

  /** In every world of every run in which the database has no gaps, an output whose hint was encrypted to a
      user under the ingress key of a stored block has a record that the user reaches. Without ingest
      failures its egress key was announced. */
  lemma EveryOutputReachesItsOwner(t: Trace, n: nat, key: IngressKey, block: nat, p: nat, view: ViewKey)
    returns (r: nat, j: nat, egress: EgressKey, q: nat)
    requires IsRun(t) && n < |t.worlds| && GapFree(t.worlds[n].db)
    requires HasRow(t.worlds[n].db.blocks, key, block)
    requires block < |t.worlds[n].ledger| && p < |t.worlds[n].ledger[block].outputs|
    requires t.worlds[n].ledger[block].outputs[p].hint == Sealed(key, Some(view))
    ensures Reaches(t.worlds[n].db, t.worlds[n].ledger[block], block, p, view, r, j, egress, q)
    ensures t.worlds[n].db.blocks[r].key == key && t.worlds[n].db.blocks[r].block == block
    ensures NoFailures(t, n) ==> egress in EgressKeys(t.worlds[n].db.invocations)
  {
    var db, b := t.worlds[n].db, t.worlds[n].ledger[block];
    RunLedgerInv(t, n);
    r :| 0 <= r < |db.blocks| && db.blocks[r].key == key && db.blocks[r].block == block;
    assert RowFaithful(t.worlds[n].ledger, db.blocks[r]);
    j := OutputIsInRow(t.worlds[n].ledger, db.blocks[r], p, view);
    var secret := db.blocks[r].records[j].searchKey.secret;
    egress := secret.egress;
    PublishedMember(db.blocks, r, j);
    if NoFailures(t, n) {
      NoRngGaps(t, n, egress, view);
    }
    var stored := Published(db.blocks, secret);
    assert Gapless(stored, secret);
    q :| 0 <= q < |stored| && stored[q] == db.blocks[r].records[j].searchKey;
    OutputsAt(secret, |stored|, q);
    assert secret == SharedSecret(egress, view);
  }
}
