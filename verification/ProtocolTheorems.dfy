/**
 * What holds in every world of every run of the ingest protocol, stated in the words of the
 * database queries and of the view server's coverage arithmetic.
 */
module ProtocolTheorems {
  import opened Prelude
  import opened FogView
  import opened RecoveryTables
  import opened TableLaws
  import opened IngestEnclave
  import opened ControllerState
  import opened IngestProtocol
  import opened Contiguity
  import opened ContiguityRuns

  // ---- contiguity ----------------------------------------------------------------------------------

  /** The blocks stored for a key are exactly [start_block, last_scanned]. */
  lemma StoredBlocksAreAnInterval(t: Trace, n: nat, key: IngressKey, block: nat)
    requires IsRun(t) && n < |t.worlds| && key in t.worlds[n].db.keys
    ensures var db := t.worlds[n].db;
            var last := LastScanned(db.blocks, key);
            HasRow(db.blocks, key, block) <==> last.Some? && db.keys[key].startBlock <= block <= last.value
  {
    RunInv(t, n);
    ContiguousMeans(t.worlds[n].db, key, block);
  }

  /** Every active server stands between its key's start block and last_scanned + 1, or exactly at
      the start block when nothing is scanned yet. */
  lemma ActiveServerAtFrontier(t: Trace, n: nat, i: ServerId)
    requires IsRun(t) && n < |t.worlds| && i < |t.worlds[n].servers| && t.worlds[n].servers[i].st.mode.Active?
    ensures var db, s := t.worlds[n].db, t.worlds[n].servers[i];
            && s.enc.ingress in db.keys
            && var last := LastScanned(db.blocks, s.enc.ingress);
               if last.Some? then db.keys[s.enc.ingress].startBlock <= s.st.nextBlockIndex <= last.value + 1
               else s.st.nextBlockIndex == db.keys[s.enc.ingress].startBlock
  {
    RunInv(t, n);
    var db, s := t.worlds[n].db, t.worlds[n].servers[i];
    assert Placed(db, s);
    ContiguousMeans(db, s.enc.ingress, 0);
  }

  /** An acknowledged attempt to add a block either extends the key's interval by exactly that block,
      or finds the block stored and changes nothing. */
  lemma PublishExtendsOrLoses(t: Trace, n: nat, i: ServerId)
    requires IsRun(t) && n < |t.steps| && t.steps[n] == By(i, AAddBlock(Acked))
    ensures var db, db', s, s' :=
              t.worlds[n].db, t.worlds[n + 1].db, t.worlds[n].servers[i], t.worlds[n + 1].servers[i];
            && s.enc.ingress in db.keys && s'.pc.Committed?
            && (if s'.pc.won then
                  && s.pc.block == ScanEnd(db, s.enc.ingress)
                  && ScanEnd(db', s.enc.ingress) == s.pc.block + 1
                  && RowOf(db'.blocks, s.enc.ingress, s.pc.block).Some?
                  && RowOf(db'.blocks, s.enc.ingress, s.pc.block).value.records == s.pc.rows
                else db' == db && HasRow(db.blocks, s.enc.ingress, s.pc.block))
  {
    var w, s := t.worlds[n], t.worlds[n].servers[i];
    RunInv(t, n);
    assert Placed(w.db, s) && Holds(w.db, s);
    AlreadyScannedIff(w.db, s.st.iid.value, s.pc.block, w.ledger[s.pc.block].cumulativeTxoCount, s.pc.timestamp,
                      s.pc.rows);
    ContiguousMeans(w.db, s.enc.ingress, s.pc.block);
    var db' := t.worlds[n + 1].db;
    if db' != w.db {
      ScannedAppend(w.db.blocks, db'.blocks[|w.db.blocks|], s.enc.ingress);
    }
  }

  // ---- the coverage arithmetic agrees with what was scanned ---------------------------------------------

  /** next_needed_block_index is Some of the least covered block not yet stored, and None exactly when
      all covered blocks are stored, for active, retired and lost keys alike. */
  lemma NextNeededIsLeastUnstored(t: Trace, n: nat, key: IngressKey)
    requires IsRun(t) && n < |t.worlds| && key in t.worlds[n].db.keys
    ensures var db := t.worlds[n].db;
            var record := RecordOf(db, key);
            match record.NextNeededBlockIndex()
            case Some(x) =>
              && record.CoversBlockIndex(x) && !HasRow(db.blocks, key, x)
              && forall b: nat :: record.CoversBlockIndex(b) && b < x ==> HasRow(db.blocks, key, b)
            case None => forall b: nat :: record.CoversBlockIndex(b) ==> HasRow(db.blocks, key, b)
  {
    RunInv(t, n);
    var db := t.worlds[n].db;
    forall b: nat
      ensures HasRow(db.blocks, key, b) <==> db.keys[key].startBlock <= b < ScanEnd(db, key)
    {
      ContiguousMeans(db, key, b);
    }
    ContiguousMeans(db, key, 0);
  }

  /** The range reported for a lost key is exactly its promised blocks that were never stored. */
  lemma MissedRangeIsUnstored(t: Trace, n: nat, key: IngressKey, block: nat)
    requires IsRun(t) && n < |t.worlds| && key in t.worlds[n].db.keys
    ensures var db := t.worlds[n].db;
            (MissedRange(db, key).Some? && MissedRange(db, key).value.Contains(block)) <==>
            db.keys[key].startBlock <= block < db.keys[key].pubkeyExpiry && !HasRow(db.blocks, key, block)
  {
    RunInv(t, n);
    ContiguousMeans(t.worlds[n].db, key, block);
  }

  // ---- going idle strands nothing ------------------------------------------------------------------------

  ghost predicate AllStored(db: Db, key: IngressKey, upTo: nat)
    requires key in db.keys
  {
    forall b: nat :: db.keys[key].startBlock <= b <= upTo ==> HasRow(db.blocks, key, b)
  }

  lemma StoredBelowFrontier(db: Db, key: IngressKey, n: nat, upTo: nat)
    requires DbOk(db) && AtFrontier(db, key, n) && n > upTo
    ensures AllStored(db, key, upTo)
  {
    forall b: nat | db.keys[key].startBlock <= b <= upTo
      ensures HasRow(db.blocks, key, b)
    {
      ContiguousMeans(db, key, b);
    }
  }

  /** A running active server becomes idle only when its key is retired and every block up to and
      including the expiry is stored, or when the block it scanned is already stored for that key. */
  lemma GoingIdleStrandsNothing(t: Trace, n: nat, i: ServerId)
    requires IsRun(t) && n < |t.steps| && i < |t.worlds[n].servers|
    requires t.worlds[n].servers[i].st.mode.Active?
    requires t.worlds[n + 1].servers[i].st.mode.Idle? && t.worlds[n + 1].servers[i].run.Up?
    ensures var db, s := t.worlds[n].db, t.worlds[n].servers[i];
            && s.enc.ingress in db.keys
            && (|| (db.keys[s.enc.ingress].retired && AllStored(db, s.enc.ingress, db.keys[s.enc.ingress].pubkeyExpiry))
                || HasRow(db.blocks, s.enc.ingress, s.st.nextBlockIndex))
  {
    RunInv(t, n);
    var w, s := t.worlds[n], t.worlds[n].servers[i];
    assert Placed(w.db, s);
    if t.steps[n].By? && t.steps[n].id == i && t.steps[n].act.ABeginBlock? {
      StoredBelowFrontier(w.db, s.enc.ingress, s.st.nextBlockIndex, w.db.keys[s.enc.ingress].pubkeyExpiry);
    }
  }

  /** Activation is refused because the key is retired only when no promised block is left to scan. */
  lemma RefusedActivationStrandsNothing(t: Trace, n: nat, i: ServerId)
    requires IsRun(t) && n < |t.steps| && t.steps[n] == By(i, APublishActivate(Acked))
    requires t.worlds[n].servers[i].enc.ingress in t.worlds[n].db.keys && t.worlds[n + 1].servers[i].st.mode.Idle?
    ensures var db, s := t.worlds[n].db, t.worlds[n].servers[i];
            db.keys[s.enc.ingress].retired && AllStored(db, s.enc.ingress, db.keys[s.enc.ingress].pubkeyExpiry)
  {
    RunInv(t, n);
    var w, s := t.worlds[n], t.worlds[n].servers[i];
    assert Placed(w.db, s) && Holds(w.db, s);
    StoredBelowFrontier(w.db, s.enc.ingress, s.pc.phase.startBlock, w.db.keys[s.enc.ingress].pubkeyExpiry);
  }

  // ---- what a server publishes -----------------------------------------------------------------------------

  lemma ActKeepsPublished(w: World, i: ServerId, act: Action)
    requires Inv(w) && i < |w.servers| && ActEnabled(w, i, act)
    requires w.servers[i].st.mode.Active? && Act(w, i, act).server.st.mode.Active?
    ensures PublishedExpiry(w.servers[i].st) <= PublishedExpiry(Act(w, i, act).server.st)
  {
    assert Placed(w.db, w.servers[i]);
  }

  lemma StepKeepsPublished(w: World, step: Step, i: ServerId)
    requires Inv(w) && Enabled(w, step) && i < |w.servers|
    ensures i < |Apply(w, step).servers|
    ensures w.servers[i].st.mode.Active? && Apply(w, step).servers[i].st.mode.Active? ==>
              PublishedExpiry(w.servers[i].st) <= PublishedExpiry(Apply(w, step).servers[i].st)
  {
    if step.By? && step.id == i && w.servers[i].st.mode.Active? && Act(w, i, step.act).server.st.mode.Active? {
      ActKeepsPublished(w, i, step.act);
    }
  }

  /** While a server stays active, the expiry it publishes never falls. */
  lemma {:induction false} PublishedExpiryMonotone(t: Trace, m: nat, n: nat, i: ServerId)
    requires IsRun(t) && m <= n < |t.worlds|
    requires forall x :: m <= x <= n ==> i < |t.worlds[x].servers| && t.worlds[x].servers[i].st.mode.Active?
    ensures PublishedExpiry(t.worlds[m].servers[i].st) <= PublishedExpiry(t.worlds[n].servers[i].st)
    decreases n
  {
    if m < n {
      PublishedExpiryMonotone(t, m, n - 1, i);
      RunInv(t, n - 1);
      StepKeepsPublished(t.worlds[n - 1], t.steps[n - 1], i);
    }
  }

  /** The transactions of a run, in commit order. */
  ghost function OpsOf(t: Trace, n: nat): seq<DbOp>
    requires IsRun(t) && n < |t.worlds|
  {
    if n == 0 then [] else OpsOf(t, n - 1) + [StepOp(t.worlds[n - 1], t.steps[n - 1])]
  }

  /** A run of the protocol is a history of the database, so the laws and promises proved of every
      history hold of it. */
  lemma {:induction false} RunIsHistory(t: Trace, n: nat)
    requires IsRun(t) && n < |t.worlds|
    ensures |OpsOf(t, n)| == n
    ensures t.worlds[n].db == DbRun(EMPTY_DB, OpsOf(t, n))
  {
    if n > 0 {
      RunIsHistory(t, n - 1);
      StepIsOp(t.worlds[n - 1], t.steps[n - 1]);
      assert OpsOf(t, n)[..n - 1] == OpsOf(t, n - 1);
    }
  }

  lemma NextWorldExtends(t: Trace, n: nat)
    requires IsRun(t) && n < |t.steps|
    ensures ExtendsMany(t.worlds[n].db, t.worlds[n + 1].db)
  {
    StepIsOp(t.worlds[n], t.steps[n]);
    ApplyExtends(t.worlds[n].db, StepOp(t.worlds[n], t.steps[n]));
  }

  lemma {:induction false} ChainExtends(dbs: seq<Db>, m: nat, n: nat)
    requires m <= n < |dbs| && forall x :: m <= x < n ==> ExtendsMany(dbs[x], dbs[x + 1])
    ensures ExtendsMany(dbs[m], dbs[n])
    decreases n
  {
    if m < n {
      ChainExtends(dbs, m, n - 1);
      assert ExtendsMany(dbs[n - 1], dbs[n - 1 + 1]);
    }
  }

  /** Later databases extend earlier ones. */
  lemma LaterWorldExtends(t: Trace, m: nat, n: nat)
    requires IsRun(t) && m <= n < |t.worlds|
    ensures ExtendsMany(t.worlds[m].db, t.worlds[n].db)
  {
    var dbs := seq(|t.worlds|, x requires 0 <= x < |t.worlds| => t.worlds[x].db);
    forall x | m <= x < n
      ensures ExtendsMany(dbs[x], dbs[x + 1])
    {
      NextWorldExtends(t, x);
    }
    ChainExtends(dbs, m, n);
  }

  // ---- restart ------------------------------------------------------------------------------------------------

  /** Restarting from a state file: the file's summary and sealed key are of the same ingress key; the
      restarted server, once up, has that key and the file's mode, peers, window and next block, no
      invocation id, and a fresh egress key with no draws. It stands at its key's frontier wherever the
      crash fell, even between committing a block and writing the file. */
  lemma RestartRoundTrip(t: Trace, n: nat, i: ServerId, ingress: IngressKey, egress: EgressKey)
    requires IsRun(t) && n < |t.worlds| && Enabled(t.worlds[n], By(i, AStartUp(ingress, egress)))
    requires t.worlds[n].servers[i].file.Some?
    ensures var w := t.worlds[n];
            var f, s' := w.servers[i].file.value, Apply(w, By(i, AStartUp(ingress, egress))).servers[i];
            var up := if f.summary.mode.Idle? then s' else FinishRestore(s');
            && f.sealedKey == f.summary.ingress
            && up.run.Up? && SummaryOf(up) == f.summary && up.st == StateFrom(f.summary) && up.st.iid.None?
            && up.enc == Enclave(f.sealedKey, egress, map[]) && egress !in w.issued
            && up.file == (if up.cfg.stateFile then Some(f) else w.servers[i].file)
            && Placed(w.db, up)
  {
    RunInv(t, n);
    var w, s := t.worlds[n], t.worlds[n].servers[i];
    assert Placed(w.db, s);
  }
}
