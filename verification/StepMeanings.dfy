/**
 * What the steps of a server mean in the tables and in its own state, over every run: when it goes idle or refuses
 * to activate, where it starts, what it publishes, records and drops.
 */
module StepMeanings {
  import opened Prelude
  import opened Coverage
  import opened FogView
  import opened RecoveryTables
  import opened TableLaws
  import opened StartBlocks
  import opened ControllerState
  import opened IngestProtocol
  import opened Contiguity
  import opened ContiguityRuns

  // ---- reports ----------------------------------------------------------------------------------------------------

  /** The report of a server about to scan `next`, if it reached the database: an unretired key is promised for
      `window` blocks from there, and never for fewer than before. A retired key is left alone. */
  ghost predicate ReportMade(db: Db, db': Db, s: Server, next: nat, out: Outcome)
    requires s.enc.ingress in db.keys
  {
    var key, expiry := s.enc.ingress, next + s.st.pubkeyExpiryWindow;
    if out.Failed? || db.keys[key].retired then db' == db
    else
      && db'.blocks == db.blocks && db'.invocations == db.invocations && db'.events == db.events
      && db'.keys.Keys == db.keys.Keys
      && (forall k :: k in db.keys && k != key ==> db'.keys[k] == db.keys[k])
      && db'.keys[key].pubkeyExpiry == Max(db.keys[key].pubkeyExpiry, expiry)
      && db'.keys[key].startBlock == db.keys[key].startBlock
      && db'.keys[key].lost == db.keys[key].lost && !db'.keys[key].retired
      && db'.reports.Keys == db.reports.Keys + {s.cfg.reportId}
      && db'.reports[s.cfg.reportId] == Report(key, s.st.iid, expiry)
      && (forall id :: id in db.reports && id != s.cfg.reportId ==> db'.reports[id] == db.reports[id])
  }

  lemma ReportIsMade(db: Db, s: Server, next: nat, out: Outcome)
    requires s.enc.ingress in db.keys && (s.st.iid.Some? ==> s.st.iid.value < |db.invocations|)
    ensures ReportMade(db, Commit(db, ReportOp(s.(st := s.st.(nextBlockIndex := next))), out), s, next, out)
  {
  }

  /** Before it scans a block, an active server publishes a report. It goes idle if and only if it hears that the key
      is retired and the block past its expiry. */
  lemma GoesIdleIff(t: Trace, n: nat, i: ServerId, out: Outcome)
    requires IsRun(t) && n < |t.steps| && t.steps[n] == By(i, ABeginBlock(out))
    ensures var db, s, s' := t.worlds[n].db, t.worlds[n].servers[i], t.worlds[n + 1].servers[i];
            && s.enc.ingress in db.keys && ReportMade(db, t.worlds[n + 1].db, s, s.st.nextBlockIndex, out)
            && (s'.st.mode.Idle? <==> out.Acked? && NothingLeft(db.keys, s.enc.ingress, s.st.nextBlockIndex))
            && s'.pc == (if s'.st.mode.Idle? then GoingIdle else Reported)
            && s'.st.nextBlockIndex == s.st.nextBlockIndex && s'.st.pubkeyExpiryWindow == s.st.pubkeyExpiryWindow
            && s'.st.iid == s.st.iid && s'.st.peers == s.st.peers && s'.enc == s.enc && s'.file == s.file
  {
    var db, s := t.worlds[n].db, t.worlds[n].servers[i];
    RunInv(t, n);
    assert Placed(db, s) && Holds(db, s);
    ReportIsMade(db, s, s.st.nextBlockIndex, out);
  }

  /** The last step of an activation publishes a report for the chosen start block. It is refused if and only if the
      report is not acknowledged, or the key is retired and the start block past its expiry. */
  lemma RefusesIff(t: Trace, n: nat, i: ServerId, out: Outcome)
    requires IsRun(t) && n < |t.steps| && t.steps[n] == By(i, APublishActivate(out))
    ensures t.worlds[n].servers[i].pc.Activating? && t.worlds[n].servers[i].pc.phase.Publishing?
    ensures var db, s, s' := t.worlds[n].db, t.worlds[n].servers[i], t.worlds[n + 1].servers[i];
            var start := s.pc.phase.startBlock;
            && s.enc.ingress in db.keys && ReportMade(db, t.worlds[n + 1].db, s, start, out)
            && (s'.st.mode.Idle? <==> !out.Acked? || NothingLeft(db.keys, s.enc.ingress, start))
            && s'.pc == Ready && s'.st.nextBlockIndex == start && s'.st.pubkeyExpiryWindow == s.st.pubkeyExpiryWindow
            && s'.st.iid == s.st.iid && s'.st.peers == s.st.peers && s'.enc == s.enc && s'.file == s.file
  {
    var db, s := t.worlds[n].db, t.worlds[n].servers[i];
    RunInv(t, n);
    assert Placed(db, s) && Holds(db, s);
    ReportIsMade(db, s, s.pc.phase.startBlock, out);
  }

  // ---- where an activation starts --------------------------------------------------------------------------------

  /** A key that is known continues where it was left; the first step towards that is to see that it is known. */
  lemma KnownKeyStart(t: Trace, n: nat, i: ServerId)
    requires IsRun(t) && n < |t.steps| && t.steps[n] == By(i, AReadLast)
    ensures var db, s, s' := t.worlds[n].db, t.worlds[n].servers[i], t.worlds[n + 1].servers[i];
            && s.enc.ingress in db.keys && t.worlds[n + 1].db == db
            && s'.pc.Activating? && s'.pc.phase.Publishing?
            && StartsAfterOwn(db.blocks, s.enc.ingress, db.keys[s.enc.ingress].startBlock, s'.pc.phase.startBlock)
            && s'.st == s.st && s'.enc == s.enc && s'.file == s.file
  {
    RunInv(t, n);
    var db, s := t.worlds[n].db, t.worlds[n].servers[i];
    assert Placed(db, s);
    StartAfterOwn(db.blocks, s.enc.ingress, db.keys[s.enc.ingress].startBlock);
  }

  lemma StatusRead(t: Trace, n: nat, i: ServerId)
    requires IsRun(t) && n < |t.steps| && t.steps[n] == By(i, AReadStatus)
    ensures var db, s, s' := t.worlds[n].db, t.worlds[n].servers[i], t.worlds[n + 1].servers[i];
            && t.worlds[n + 1].db == db && s'.pc.Activating?
            && (s'.pc.phase.KeyKnown? <==> s.enc.ingress in db.keys)
            && (s'.pc.phase.KeyUnknown? <==> s.enc.ingress !in db.keys)
            && s'.st == s.st && s'.enc == s.enc && s'.file == s.file
  {
  }

  /** A new key starts after the last block anyone knows of. */
  lemma NewKeyStart(t: Trace, n: nat, i: ServerId, ledgerNumBlocks: nat)
    requires IsRun(t) && n < |t.steps| && t.steps[n] == By(i, AReadHighest(ledgerNumBlocks))
    ensures var db, s, s' := t.worlds[n].db, t.worlds[n].servers[i], t.worlds[n + 1].servers[i];
            && t.worlds[n + 1].db == db && s'.pc.Activating? && s'.pc.phase.Inserting?
            && StartsAfterAll(db.blocks, ledgerNumBlocks, s'.pc.phase.startBlock)
            && s'.st == s.st && s'.enc == s.enc && s'.file == s.file
  {
    StartAfterAll(t.worlds[n].db.blocks, ledgerNumBlocks);
  }

  /** The key is inserted with the chosen start block, unless another server was faster; the activation goes on if
      and only if it hears that the key was inserted. */
  lemma KeyInserted(t: Trace, n: nat, i: ServerId, out: Outcome)
    requires IsRun(t) && n < |t.steps| && t.steps[n] == By(i, AInsertKey(out))
    ensures t.worlds[n].servers[i].pc.Activating? && t.worlds[n].servers[i].pc.phase.Inserting?
    ensures var db, db', s, s' :=
              t.worlds[n].db, t.worlds[n + 1].db, t.worlds[n].servers[i], t.worlds[n + 1].servers[i];
            var key, start := s.enc.ingress, s.pc.phase.startBlock;
            && (if out.Failed? || key in db.keys then db' == db
                else
                  && db'.keys == db.keys[key := KeyStatus(start, 0, false, false)]
                  && db' == db.(keys := db'.keys))
            && (if out.Acked? && key !in db.keys then s'.pc.Activating? && s'.pc.phase == Publishing(start)
                else s'.pc == Ready)
            && s'.st == s.st && s'.enc == s.enc && s'.file == s.file
  {
  }

  // ---- invocations --------------------------------------------------------------------------------------------------

  /** A new invocation row, announced by an event; `old_` is the table before. */
  ghost predicate Recorded(old_: seq<Invocation>, events: seq<UserEvent>, db': Db, key: IngressKey, egress: EgressKey,
                           start: nat)
  {
    && |db'.invocations| == |old_| + 1 && db'.invocations[..|old_|] == old_
    && db'.invocations[|old_|].key == key && db'.invocations[|old_|].egress == egress
    && db'.invocations[|old_|].startBlock == start && !db'.invocations[|old_|].decommissioned
    && db'.events == events + [NewIngestInvocation(|old_|)]
  }

  ghost predicate NewEgress(invocations: seq<Invocation>, egress: EgressKey) {
    forall x :: 0 <= x < |invocations| ==> invocations[x].egress != egress
  }

  /** The invocation is marked and announced as decommissioned, and nothing else changes. */
  ghost predicate MarkedDecommissioned(db: Db, invocations: seq<Invocation>, events: seq<UserEvent>,
                                       iid: InvocationId) {
    && iid < |db.invocations| == |invocations| && invocations[iid].decommissioned
    && SameInvocation(db.invocations[iid], invocations[iid])
    && (forall x :: 0 <= x < |invocations| && x != iid ==> invocations[x] == db.invocations[x])
    && events == db.events + [DecommissionIngestInvocation(iid)]
  }

  /** A server without an invocation id records one for the block it is about to scan; one with an id goes on with
      it. Not hearing that it was recorded is fatal. */
  lemma InvocationTaken(t: Trace, n: nat, i: ServerId, out: Outcome, timestamp: nat)
    requires IsRun(t) && n < |t.steps| && t.steps[n] == By(i, ATakeInvocation(out, timestamp))
    ensures var db, db', s, s' :=
              t.worlds[n].db, t.worlds[n + 1].db, t.worlds[n].servers[i], t.worlds[n + 1].servers[i];
            && db'.keys == db.keys && db'.blocks == db.blocks && db'.reports == db.reports
            && (s'.run.Up? <==> s.st.iid.Some? || (out.Acked? && NewEgress(db.invocations, s.enc.egress)))
            && (if s.st.iid.Some? then db' == db && s'.st == s.st
                else if out.Failed? || !NewEgress(db.invocations, s.enc.egress) then db' == db
                else Recorded(db.invocations, db.events, db', s.enc.ingress, s.enc.egress, s.st.nextBlockIndex))
            && (s.st.iid.None? && s'.run.Up? ==> s'.st.iid == Some(|db.invocations|))
            && (s'.run.Up? ==>
                  && s'.pc == Scanning(s.st.nextBlockIndex, [], 0, timestamp) && s'.enc == s.enc && s'.file == s.file
                  && s'.st.mode == s.st.mode && s'.st.nextBlockIndex == s.st.nextBlockIndex
                  && s'.st.pubkeyExpiryWindow == s.st.pubkeyExpiryWindow && s'.st.peers == s.st.peers)
  {
    RunInv(t, n);
    assert Placed(t.worlds[n].db, t.worlds[n].servers[i]);
  }

  /** Going idle drops the invocation id. If the database hears of it, the invocation is decommissioned there. */
  lemma InvocationDropped(t: Trace, n: nat, i: ServerId, out: Outcome)
    requires IsRun(t) && n < |t.steps| && t.steps[n] == By(i, ADropInvocation(out))
    ensures var db, db', s, s' :=
              t.worlds[n].db, t.worlds[n + 1].db, t.worlds[n].servers[i], t.worlds[n + 1].servers[i];
            && s'.st.iid.None? && s'.pc == Rekeying && s'.enc == s.enc
            && db'.keys == db.keys && db'.blocks == db.blocks && db'.reports == db.reports
            && (if s.st.iid.None? || out.Failed? then db' == db
                else MarkedDecommissioned(db, db'.invocations, db'.events, s.st.iid.value))
  {
    RunInv(t, n);
    assert Holds(t.worlds[n].db, t.worlds[n].servers[i]) && DbInv(t.worlds[n].db);
  }

  /** Recording a rotation, if it commits, decommissions the invocation the server holds and records one for the new
      egress key, from the block being scanned on. The scan goes on if and only if the server hears of it. */
  lemma RotationRecorded(t: Trace, n: nat, i: ServerId, out: Outcome)
    requires IsRun(t) && n < |t.steps| && t.steps[n] == By(i, ARecordRotation(out))
             && t.worlds[n + 1].db != t.worlds[n].db
    ensures t.worlds[n].servers[i].pc.Rotating? && t.worlds[n].servers[i].st.iid.Some?
            && |t.worlds[n + 1].db.events| > 0
    ensures var db, db', s, s' :=
              t.worlds[n].db, t.worlds[n + 1].db, t.worlds[n].servers[i], t.worlds[n + 1].servers[i];
            var old_, events := db'.invocations[..|db.invocations|], db'.events[..|db'.events| - 1];
            && MarkedDecommissioned(db, old_, events, s.st.iid.value)
            && Recorded(old_, events, db', s.enc.ingress, s.pc.egress, s.pc.block)
            && db'.keys == db.keys && db'.blocks == db.blocks && db'.reports == db.reports
            && (if out.Acked? then
                  && s'.st.iid == Some(|db.invocations|)
                  && s'.pc == Scanning(s.pc.block, s.pc.rows, s.pc.pos, s.pc.timestamp)
                else s' == s)
            && s'.enc == s.enc && s'.file == s.file && s'.st.(iid := None) == s.st.(iid := None)
  {
    var w, s := t.worlds[n], t.worlds[n].servers[i];
    RunInv(t, n);
    assert Placed(w.db, s) && Holds(w.db, s) && DbInv(w.db);
    RotationMeans(w.db, s.st.iid.value, s.enc.ingress, s.pc.egress, s.pc.block);
  }

  lemma RotationMeans(db: Db, iid: InvocationId, key: IngressKey, egress: EgressKey, start: nat)
    requires iid < |db.invocations|
    ensures var r := NewInvocation(db, Some(iid), key, egress, start);
            r.Ok? ==>
              var db' := r.value.0;
              && r.value.1 == |db.invocations| < |db'.invocations| && |db'.events| > 0
              && MarkedDecommissioned(db, db'.invocations[..|db.invocations|], db'.events[..|db'.events| - 1], iid)
              && Recorded(db'.invocations[..|db.invocations|], db'.events[..|db'.events| - 1], db', key, egress, start)
              && db'.keys == db.keys && db'.blocks == db.blocks && db'.reports == db.reports
  {
    var r := NewInvocation(db, Some(iid), key, egress, start);
    if r.Ok? {
      var d, db' := Decommission(db, iid).value, r.value.0;
      assert db'.invocations[..|db.invocations|] == d.invocations;
      assert db'.events[..|db'.events| - 1] == d.events;
    }
  }

  // ---- chunks ---------------------------------------------------------------------------------------------------

  /** Handing a chunk to the enclave changes nothing in the tables and nothing of what the server is doing. After a
      rotation the new egress key is to be recorded before the scan goes on. After a failure the block is started
      again, with the invocation the server holds and the rngs as the enclave left them. */
  lemma ChunkTaken(t: Trace, n: nat, i: ServerId)
    requires IsRun(t) && n < |t.steps| && t.steps[n].By? && t.steps[n].id == i && t.steps[n].act.AIngestChunk?
    ensures var s, s' := t.worlds[n].servers[i], t.worlds[n + 1].servers[i];
            && t.worlds[n + 1].db == t.worlds[n].db && s.pc.Scanning?
            && s'.st == s.st && s'.file == s.file && s'.enc.ingress == s.enc.ingress
            && match t.steps[n].act.outcome
               case Kept =>
                 && s'.enc.egress == s.enc.egress && s'.pc.Scanning? && s.pc.rows <= s'.pc.rows && s.pc.pos <= s'.pc.pos
                 && s'.pc.block == s.pc.block && s'.pc.timestamp == s.pc.timestamp
               case Rotated(egress) =>
                 && s'.enc.egress == egress && s'.pc.Rotating? && s.pc.rows <= s'.pc.rows && s.pc.pos <= s'.pc.pos
                 && s'.pc.block == s.pc.block && s'.pc.timestamp == s.pc.timestamp && s'.pc.egress == egress
               case IngestFailed(after) => s'.enc == after && s'.pc == Ready
  {
  }

  // ---- blocks -----------------------------------------------------------------------------------------------------

  /** The row a commit stores is the server's: its invocation and key, the block it scanned with the ledger's count of
      outputs, the timestamp it was given, and the records it made. */
  lemma BlockStored(t: Trace, n: nat, i: ServerId, out: Outcome)
    requires IsRun(t) && n < |t.steps| && t.steps[n] == By(i, AAddBlock(out))
    ensures var w, db', s, s' := t.worlds[n], t.worlds[n + 1].db, t.worlds[n].servers[i], t.worlds[n + 1].servers[i];
            && s.pc.Scanning? && s.st.iid.Some? && s.pc.block < |w.ledger|
            && db' == w.db.(blocks := db'.blocks)
            && (if out.Failed? || HasRow(w.db.blocks, s.enc.ingress, s.pc.block) then db'.blocks == w.db.blocks
                else
                  && |db'.blocks| == |w.db.blocks| + 1 && w.db.blocks <= db'.blocks
                  && var row := db'.blocks[|w.db.blocks|];
                  && row.iid == s.st.iid.value && row.key == s.enc.ingress && row.block == s.pc.block
                  && row.cumulativeTxoCount == w.ledger[s.pc.block].cumulativeTxoCount
                  && row.timestamp == s.pc.timestamp && row.records == s.pc.rows)
            && s'.pc == (if out.Acked? then Committed(s.pc.block, !HasRow(w.db.blocks, s.enc.ingress, s.pc.block))
                         else s.pc)
            && s'.st == s.st && s'.enc == s.enc && s'.file == s.file
  {
    var w, s := t.worlds[n], t.worlds[n].servers[i];
    RunInv(t, n);
    assert Placed(w.db, s) && Holds(w.db, s);
    AlreadyScannedIff(w.db, s.st.iid.value, s.pc.block, w.ledger[s.pc.block].cumulativeTxoCount, s.pc.timestamp,
                      s.pc.rows);
  }

  /** A server that won goes on to the next block; one that lost goes idle. Nothing else of it changes. */
  lemma TurnFinished(t: Trace, n: nat, i: ServerId)
    requires IsRun(t) && n < |t.steps| && t.steps[n] == By(i, AFinish)
    ensures t.worlds[n].servers[i].pc.Committed? && t.worlds[n + 1].db == t.worlds[n].db
    ensures var s, s' := t.worlds[n].servers[i], t.worlds[n + 1].servers[i];
            && (if s.pc.won then
                  s'.pc == Ready && s'.st.mode.Active? && s'.st.nextBlockIndex == s.st.nextBlockIndex + 1
                else s'.pc == GoingIdle && s'.st.mode.Idle? && s'.st.nextBlockIndex == s.st.nextBlockIndex)
            && s'.st.pubkeyExpiryWindow == s.st.pubkeyExpiryWindow && s'.st.iid == s.st.iid && s'.st.peers == s.st.peers
            && s'.enc == s.enc && s'.file == s.file
  {
    RunInv(t, n);
    assert Placed(t.worlds[n].db, t.worlds[n].servers[i]);
  }
}
