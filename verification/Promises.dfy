/**
 * The promise behind a published ingress key: every block from the key's start block up to the
 * expiry of any report ever published for it is scanned with the key or reported as missed
 * (fog/sql_recovery_db/src/lib.rs: set_report, retire_ingress_key, report_lost_ingress_key).
 */
module Promises {
  import opened Prelude
  import opened Coverage
  import opened FogView
  import opened RecoveryTables
  import opened TableLaws

  /** Answered: the view server still waits for, or has, this block of the key, or users are told to download it. */
  ghost predicate Answered(db: Db, key: IngressKey, block: nat)
    requires key in db.keys
  {
    RecordOf(db, key).CoversBlockIndex(block) || InMissedRange(db.events, block)
  }

  ghost predicate PromiseKept(db: Db, key: IngressKey, expiry: nat)
    requires key in db.keys
  {
    forall b: nat :: db.keys[key].startBlock <= b < expiry ==> Answered(db, key, b)
  }

  ghost predicate AllPromisesKept(db: Db) {
    forall k :: k in db.keys ==> PromiseKept(db, k, db.keys[k].pubkeyExpiry)
  }

  /** set_report raising the expiry of a key that was already reported lost; the code does not test for it. */
  predicate RaisesLostKey(db: Db, op: DbOp) {
    && op.OpSetReport?
    && op.key in db.keys
    && db.keys[op.key].lost
    && !db.keys[op.key].retired
    && db.keys[op.key].pubkeyExpiry < op.expiry
  }

  lemma {:induction false} LastScannedGrows(blocks: seq<BlockRow>, blocks': seq<BlockRow>, key: IngressKey)
    requires blocks <= blocks'
    ensures LastScanned(blocks, key).Some? ==>
              LastScanned(blocks', key).Some? && LastScanned(blocks, key).value <= LastScanned(blocks', key).value
    decreases |blocks'|
  {
    if blocks == blocks' {
    } else {
      LastScannedGrows(blocks, blocks'[..|blocks'| - 1], key);
    }
  }

  /** A missed range, once reported, stays reported. */
  lemma MissedStays(events: seq<UserEvent>, events': seq<UserEvent>, block: nat)
    requires events <= events' && InMissedRange(events, block)
    ensures InMissedRange(events', block)
  {
    var i :| 0 <= i < |events| && events[i].MissingBlocks? && events[i].range.Contains(block);
    assert events'[i] == events[i];
  }

  /** Right after a loss report every promised block is scanned or in the reported range. */
  lemma LossAnswers(db: Db, key: IngressKey, b: nat)
    requires key in db.keys && ReportLost(db, key).Ok?
    requires db.keys[key].startBlock <= b < db.keys[key].pubkeyExpiry
    ensures Answered(ReportLost(db, key).value, key, b)
  {
    var db' := ReportLost(db, key).value;
    if !RecordOf(db', key).CoversBlockIndex(b) {
      var range := MissedRange(db, key).value;
      assert db'.events[|db.events|] == MissingBlocks(range);
      assert range.Contains(b);
    }
  }

  /** Every transaction keeps every promise, except raising the expiry of a lost key. */
  lemma ApplyKeepsPromises(db: Db, op: DbOp)
    requires AllPromisesKept(db) && !RaisesLostKey(db, op)
    ensures AllPromisesKept(DbApply(db, op))
  {
    var db' := DbApply(db, op);
    ApplyExtends(db, op);
    forall k, b: nat | k in db'.keys && db'.keys[k].startBlock <= b < db'.keys[k].pubkeyExpiry
      ensures Answered(db', k, b)
    {
      if db'.keys[k].lost {
        if op == OpReportLost(k) && ReportLost(db, k).Ok? {
          LossAnswers(db, k, b);
        } else {
          LastScannedGrows(db.blocks, db'.blocks, k);
          assert PromiseKept(db, k, db.keys[k].pubkeyExpiry);
          assert Answered(db, k, b);
          if InMissedRange(db.events, b) {
            MissedStays(db.events, db'.events, b);
          }
        }
      }
    }
  }

  ghost predicate NoPublishAfterLoss(db: Db, ops: seq<DbOp>) {
    forall n :: 0 <= n < |ops| ==> !RaisesLostKey(DbRun(db, ops[..n]), ops[n])
  }

  lemma {:induction false} RunKeepsPromises(db: Db, ops: seq<DbOp>)
    requires AllPromisesKept(db) && NoPublishAfterLoss(db, ops)
    ensures AllPromisesKept(DbRun(db, ops))
  {
    if |ops| > 0 {
      var front := ops[..|ops| - 1];
      assert forall n :: 0 <= n < |front| ==> front[..n] == ops[..n] && front[n] == ops[n];
      RunKeepsPromises(db, front);
      ApplyKeepsPromises(DbRun(db, front), ops[|ops| - 1]);
    }
  }

  lemma RunSplit(db: Db, ops: seq<DbOp>, n: nat)
    requires n <= |ops|
    ensures DbRun(db, ops) == DbRun(DbRun(db, ops[..n]), ops[n..])
    decreases |ops|
  {
    if n == |ops| {
      assert ops[..n] == ops;
    } else {
      var front := ops[..|ops| - 1];
      RunSplit(db, front, n);
      assert front[..n] == ops[..n];
      assert front[n..] == ops[n..][..|ops| - n - 1];
    }
  }

  lemma PromiseShrinks(db: Db, key: IngressKey, expiry: nat)
    requires AllPromisesKept(db) && key in db.keys && expiry <= db.keys[key].pubkeyExpiry
    ensures PromiseKept(db, key, expiry)
  {
    assert PromiseKept(db, key, db.keys[key].pubkeyExpiry);
  }

  /** Promise coverage: take any history from the empty database in which no lost key is published
      again, and any report in it that was actually published. At the end of the history, however
      long after the report and through any retire, unretire and loss, every block from the key's
      start block up to the report's expiry is covered by the key's record or reported missed. */
  lemma PromiseCoverage(ops: seq<DbOp>, n: nat)
    requires NoPublishAfterLoss(EMPTY_DB, ops)
    requires n < |ops| && ops[n].OpSetReport?
    requires var r :=
               SetReport(DbRun(EMPTY_DB, ops[..n]), ops[n].key, ops[n].reportId, ops[n].publisher, ops[n].expiry);
             r.Ok? && !r.value.1.retired
    ensures ops[n].key in DbRun(EMPTY_DB, ops).keys
    ensures PromiseKept(DbRun(EMPTY_DB, ops), ops[n].key, ops[n].expiry)
  {
    var key, expiry := ops[n].key, ops[n].expiry;
    var after := DbRun(EMPTY_DB, ops[..n + 1]);
    assert ops[..n + 1][..n] == ops[..n];
    RunSplit(EMPTY_DB, ops, n + 1);
    RunLaws(EMPTY_DB, ops[..n + 1]);
    RunLaws(after, ops[n + 1..]);
    RunKeepsPromises(EMPTY_DB, ops);
    PromiseShrinks(DbRun(EMPTY_DB, ops), key, expiry);
  }

  // ---- publishing a lost key --------------------------------------------------------------------

  /** The first block of a lost key that its own scanning and loss report leave unanswered. */
  function LossHorizon(db: Db, key: IngressKey): nat
    requires key in db.keys
  {
    var record := RecordOf(db, key);
    var scanned := if record.lastScanned.Some? then record.lastScanned.value + 1 else 0;
    Max(Max(scanned, record.status.pubkeyExpiry), record.status.startBlock)
  }

  /** Publishing `expiry` for a lost, unretired key keeps the promise exactly when the new expiry
      stays within the horizon, or the blocks past it were reported missed for some other key. */
  lemma PublishAfterLossIff(db: Db, key: IngressKey, reportId: ReportId, publisher: Option<InvocationId>, expiry: nat)
    requires AllPromisesKept(db)
    requires key in db.keys && db.keys[key].lost && !db.keys[key].retired
    ensures var db' := DbApply(db, OpSetReport(key, reportId, publisher, expiry));
            PromiseKept(db', key, expiry) <==>
            forall b: nat :: LossHorizon(db, key) <= b < expiry ==> InMissedRange(db.events, b)
  {
    var db' := DbApply(db, OpSetReport(key, reportId, publisher, expiry));
    assert PromiseKept(db, key, db.keys[key].pubkeyExpiry);
    forall b: nat | db.keys[key].startBlock <= b
      ensures Answered(db', key, b) <==> Answered(db, key, b)
    {
    }
    if PromiseKept(db', key, expiry) {
      forall b: nat | LossHorizon(db, key) <= b < expiry
        ensures InMissedRange(db.events, b)
      {
        assert Answered(db', key, b);
      }
    }
    if forall b: nat :: LossHorizon(db, key) <= b < expiry ==> InMissedRange(db.events, b) {
      forall b: nat | db'.keys[key].startBlock <= b < expiry
        ensures Answered(db', key, b)
      {
        if b < LossHorizon(db, key) {
          assert Answered(db, key, b);
        }
      }
    }
  }

  /** A concrete history in which the promise breaks: a key starting at 10 is published to 15,
      reported lost with nothing scanned, and published again to 20 by a server that still runs. */
  lemma PublishAfterLossBreaksPromise()
    ensures var ops := [OpNewKey(7, 10), OpSetReport(7, "", None, 15), OpReportLost(7), OpSetReport(7, "", None, 20)];
            7 in DbRun(EMPTY_DB, ops).keys && !PromiseKept(DbRun(EMPTY_DB, ops), 7, 20)
  {
    var ops := [OpNewKey(7, 10), OpSetReport(7, "", None, 15), OpReportLost(7), OpSetReport(7, "", None, 20)];
    var db1 := DbApply(EMPTY_DB, ops[0]);
    var db2 := DbApply(db1, ops[1]);
    var db3 := DbApply(db2, ops[2]);
    var db4 := DbApply(db3, ops[3]);
    assert ops[..3][..2][..1] == [ops[0]] && ops[..3][..2][..1][..0] == [];
    assert ops[..3][2] == ops[2] && ops[..3][..2][1] == ops[1];
    assert DbRun(EMPTY_DB, ops[..3][..2][..1]) == db1;
    assert DbRun(EMPTY_DB, ops[..3][..2]) == db2;
    assert DbRun(EMPTY_DB, ops[..3]) == db3;
    assert DbRun(EMPTY_DB, ops) == db4;
    assert db3.events == [MissingBlocks(BlockRange(10, 15))];
    assert !InMissedRange(db4.events, 17);
    assert !Answered(db4, 7, 17);
  }

  // ---- reporting a loss ---------------------------------------------------------------------------

  /** A loss report commits exactly when the key exists and the range it would add, if any, was
      not recorded before, by this key or any other. */
  lemma ReportLostCommitsIff(db: Db, key: IngressKey)
    ensures ReportLost(db, key).Ok? <==>
            key in db.keys && (MissedRange(db, key).Some? ==> MissingBlocks(MissedRange(db, key).value) !in db.events)
  {
  }

  /** Two keys that were promised the same unscanned blocks cannot both be reported lost: the second
      report is rolled back, the key stays in force and keeps covering its blocks for ever. */
  lemma SecondLossOfSameRangeFails(db: Db, first: IngressKey, second: IngressKey)
    requires first in db.keys && second in db.keys && first != second
    requires ReportLost(db, first).Ok? && MissedRange(db, first).Some?
    requires MissedRange(db, second) == MissedRange(db, first)
    ensures var db' := ReportLost(db, first).value;
            && ReportLost(db', second).Err?
            && DbApply(db', OpReportLost(second)) == db'
            && db'.keys[second].lost == db.keys[second].lost
  {
    var db' := ReportLost(db, first).value;
    assert db'.events[|db.events|] == MissingBlocks(MissedRange(db, first).value);
    assert MissedRange(db', second) == MissedRange(db, second);
  }

  /** Lost-key partition: right after the first loss report of a key, each promised block satisfies
      exactly one of "covered by the record" and "in the range just reported". */
  lemma LostKeyPartition(db: Db, key: IngressKey, b: nat)
    requires key in db.keys && !db.keys[key].lost && ReportLost(db, key).Ok?
    requires db.keys[key].startBlock <= b < db.keys[key].pubkeyExpiry
    ensures var covered := RecordOf(ReportLost(db, key).value, key).CoversBlockIndex(b);
            var missed := MissedRange(db, key).Some? && MissedRange(db, key).value.Contains(b);
            covered != missed
  {
    LossAnswers(db, key, b);
  }
}
