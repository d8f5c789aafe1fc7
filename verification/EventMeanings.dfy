/**
 * What a client that has paged to the end of the event table knows, in the words of the tables: which blocks were
 * missed, which invocations there are and from which block on, and which have ended and with which block.
 */
module EventMeanings {
  import opened RecoveryTables
  import opened TableLaws
  import opened IngestProtocol
  import opened ContiguityRuns
  import opened ProtocolTheorems
  import opened Invocations
  import opened EventPaging
  import opened RngDiscovery

  ghost predicate StoredUnder(rows: seq<BlockRow>, iid: InvocationId, block: nat) {
    exists r :: 0 <= r < |rows| && rows[r].iid == iid && rows[r].block == block
  }

  lemma SameLastBlock(rows: seq<BlockRow>, rows': seq<BlockRow>, iid: InvocationId, block: nat)
    requires rows <= rows' && IsLastBlock(rows, iid, block)
    requires forall b: nat :: StoredUnder(rows', iid, b) ==> StoredUnder(rows, iid, b)
    ensures IsLastBlock(rows', iid, block)
  {
    forall r | 0 <= r < |rows'| && rows'[r].iid == iid
      ensures rows'[r].block <= block && StoredUnder(rows, iid, rows'[r].block)
    {
      assert StoredUnder(rows', iid, rows'[r].block);
    }
    if x :| 0 <= x < |rows| && rows[x].iid == iid && rows[x].block == block {
      assert rows'[x] == rows[x];
    }
  }

  /** After an invocation is decommissioned its last block is settled. */
  lemma LastBlockSettled(t: Trace, m: nat, n: nat, iid: InvocationId, block: nat)
    requires IsRun(t) && m <= n < |t.worlds| && Retired(t.worlds[m], iid)
             && IsLastBlock(t.worlds[m].db.blocks, iid, block)
    ensures IsLastBlock(t.worlds[n].db.blocks, iid, block)
  {
    LaterWorldExtends(t, m, n);
    forall b: nat | StoredUnder(t.worlds[n].db.blocks, iid, b)
      ensures StoredUnder(t.worlds[m].db.blocks, iid, b)
    {
      RetiredGetsNoRows(t, m, n, iid, b);
      assert InvocationHasRow(t.worlds[n].db, iid, b);
    }
    SameLastBlock(t.worlds[m].db.blocks, t.worlds[n].db.blocks, iid, block);
  }

  /** What a client was told of an event stays true. */
  lemma TellsForGood(t: Trace, m: nat, n: nat, x: nat, shown: FogUserEvent)
    requires IsRun(t) && m <= n < |t.worlds| && x < |t.worlds[m].db.events|
    requires Tells(t.worlds[m].db, t.worlds[m].db.events[x], shown)
    ensures x < |t.worlds[n].db.events| && Tells(t.worlds[n].db, t.worlds[n].db.events[x], shown)
  {
    var db, db' := t.worlds[m].db, t.worlds[n].db;
    LaterWorldExtends(t, m, n);
    assert db'.events[x] == db.events[x];
    match db.events[x]
    case NewIngestInvocation(iid) => assert SameInvocation(db.invocations[iid], db'.invocations[iid]);
    case DecommissionIngestInvocation(iid) =>
      RunInv(t, m);
      assert DbInv(db) && DecommissionIngestInvocation(iid) in db.events;
      LastBlockSettled(t, m, n, iid, shown.lastIngestedBlock);
    case MissingBlocks(_) =>
  }

  /** Polls at any times of a run: the x-th event received tells, for good, about the x-th event of the table. */
  lemma {:induction false} ReceivedTells(t: Trace, times: seq<nat>, n: nat, x: nat)
    requires IsRun(t) && PollTimes(t, times) && n < |t.worlds| && x < CursorOf(t, times)
    requires forall i :: 0 <= i < |times| ==> times[i] <= n
    ensures x < |t.worlds[n].db.events| && x < |Received(t, times)|
    ensures Tells(t.worlds[n].db, t.worlds[n].db.events[x], Received(t, times)[x].event)
  {
    ReceivedAll(t, times, n);
    var m, front := times[|times| - 1], times[..|times| - 1];
    CursorFits(t, times);
    ReceivedAll(t, front, m);
    var c, db := CursorOf(t, front), t.worlds[m].db;
    if x < c {
      ReceivedTells(t, front, n, x);
      assert Received(t, times)[x] == Received(t, front)[x];
    } else {
      assert Received(t, times)[x] == PageOf(db, c)[x - c];
      RenderTells(db, db.events[x], Received(t, times)[x].event);
      TellsForGood(t, m, n, x, Received(t, times)[x].event);
    }
  }

  lemma AllTell(t: Trace, times: seq<nat>)
    requires IsRun(t) && PollTimes(t, times) && |times| > 0
    ensures var db, got := t.worlds[times[|times| - 1]].db, Received(t, times);
            |got| == |db.events| && forall x :: 0 <= x < |got| ==> Tells(db, db.events[x], got[x].event)
  {
    var n := times[|times| - 1];
    ReceivedAll(t, times, n);
    forall x | 0 <= x < CursorOf(t, times)
      ensures Tells(t.worlds[n].db, t.worlds[n].db.events[x], Received(t, times)[x].event)
    {
      ReceivedTells(t, times, n, x);
    }
  }

  /** The client has been told that the block was missed. */
  ghost predicate ToldMissed(got: seq<Keyed>, block: nat) {
    exists x :: 0 <= x < |got| && got[x].event.MissedBlocks? && got[x].event.range.Contains(block)
  }

  /** A client that has paged to the end knows exactly the blocks that were reported missed. */
  lemma MissedBlocksKnown(t: Trace, times: seq<nat>, block: nat)
    requires IsRun(t) && PollTimes(t, times) && |times| > 0
    ensures ToldMissed(Received(t, times), block) <==>
            InMissedRange(t.worlds[times[|times| - 1]].db.events, block)
  {
    var db, got := t.worlds[times[|times| - 1]].db, Received(t, times);
    AllTell(t, times);
    if ToldMissed(got, block) {
      var x :| 0 <= x < |got| && got[x].event.MissedBlocks? && got[x].event.range.Contains(block);
      assert Tells(db, db.events[x], got[x].event);
      assert db.events[x].MissingBlocks? && db.events[x].range.Contains(block);
    }
    if InMissedRange(db.events, block) {
      var x :| 0 <= x < |db.events| && db.events[x].MissingBlocks? && db.events[x].range.Contains(block);
      assert Tells(db, db.events[x], got[x].event);
      assert got[x].event.MissedBlocks? && got[x].event.range.Contains(block);
    }
  }

  /** The client has been told about an rng: its invocation, its egress key and the block from which to look. */
  ghost predicate ToldRng(got: seq<Keyed>, iid: InvocationId, egress: EgressKey, startBlock: nat) {
    exists x :: 0 <= x < |got| && got[x].event == NewRngRecord(iid, egress, startBlock)
  }

  /** The rng records it holds are exactly the invocation rows: id, egress key and start block. */
  lemma RngRecordsKnown(t: Trace, times: seq<nat>, iid: InvocationId, egress: EgressKey, startBlock: nat)
    requires IsRun(t) && PollTimes(t, times) && |times| > 0
    ensures var db := t.worlds[times[|times| - 1]].db;
            ToldRng(Received(t, times), iid, egress, startBlock) <==>
            && iid < |db.invocations| && db.invocations[iid].egress == egress
            && db.invocations[iid].startBlock == startBlock
  {
    var n := times[|times| - 1];
    var db, got := t.worlds[n].db, Received(t, times);
    AllTell(t, times);
    RunEventsOk(t, n);
    if ToldRng(got, iid, egress, startBlock) {
      var x :| 0 <= x < |got| && got[x].event == NewRngRecord(iid, egress, startBlock);
      assert Tells(db, db.events[x], got[x].event);
    }
    if iid < |db.invocations| && db.invocations[iid].egress == egress && db.invocations[iid].startBlock == startBlock {
      assert NewIngestInvocation(iid) in db.events;
      var x :| 0 <= x < |db.events| && db.events[x] == NewIngestInvocation(iid);
      assert Tells(db, db.events[x], got[x].event);
    }
  }

  /** The client has been told that the invocation has ended with this block. */
  ghost predicate ToldEnded(got: seq<Keyed>, iid: InvocationId, block: nat) {
    exists x :: 0 <= x < |got| && got[x].event == Decommissioned(iid, block)
  }

  /** It knows exactly the decommissioned invocations, each with the last block stored under it, or 0 if there is
      none. */
  lemma EndedInvocationsKnown(t: Trace, times: seq<nat>, iid: InvocationId, block: nat)
    requires IsRun(t) && PollTimes(t, times) && |times| > 0
    ensures var db := t.worlds[times[|times| - 1]].db;
            ToldEnded(Received(t, times), iid, block) <==>
            iid < |db.invocations| && db.invocations[iid].decommissioned && IsLastBlock(db.blocks, iid, block)
  {
    var n := times[|times| - 1];
    var db, got := t.worlds[n].db, Received(t, times);
    AllTell(t, times);
    RunInv(t, n);
    assert DbInv(db);
    if ToldEnded(got, iid, block) {
      var x :| 0 <= x < |got| && got[x].event == Decommissioned(iid, block);
      assert Tells(db, db.events[x], got[x].event);
      assert DecommissionIngestInvocation(iid) in db.events;
    }
    if iid < |db.invocations| && db.invocations[iid].decommissioned && IsLastBlock(db.blocks, iid, block) {
      assert DecommissionIngestInvocation(iid) in db.events;
      var x :| 0 <= x < |db.events| && db.events[x] == DecommissionIngestInvocation(iid);
      assert Tells(db, db.events[x], got[x].event);
      OneLastBlock(db.blocks, iid, block, got[x].event.lastIngestedBlock);
    }
  }
}
