/**
 * What the rows of the recovery database say about its past. After any history of transactions from the empty
 * database, each flag and number of a key's row, and each published report, is the one the history put there.
 */
module Histories {
  import opened FogView
  import opened RecoveryTables
  import opened TableLaws

  /** The database before transaction x of a history. */
  function Before(ops: seq<DbOp>, x: nat): Db
    requires x <= |ops|
  {
    DbRun(EMPTY_DB, ops[..x])
  }

  function Now(ops: seq<DbOp>): Db {
    DbRun(EMPTY_DB, ops)
  }

  /** The last transaction of a history acts on what the others left. */
  lemma LastActs(ops: seq<DbOp>)
    requires |ops| > 0
    ensures Now(ops) == DbApply(Now(ops[..|ops| - 1]), ops[|ops| - 1])
    ensures Before(ops, |ops| - 1) == Now(ops[..|ops| - 1])
    ensures forall x :: 0 <= x < |ops| ==> Before(ops[..|ops| - 1], x) == Before(ops, x)
  {
    forall x | 0 <= x < |ops|
      ensures ops[..|ops| - 1][..x] == ops[..x]
    {
    }
  }

  // ---- the key row -------------------------------------------------------------------------------------------------

  /** Transaction x inserts the key. */
  ghost predicate Inserts(ops: seq<DbOp>, x: int, key: IngressKey) {
    0 <= x < |ops| && ops[x].OpNewKey? && ops[x].key == key && key !in Before(ops, x).keys
  }

  /** Transaction x sets the retired flag of an existing key, and no later one clears it. */
  ghost predicate RetiresForGood(ops: seq<DbOp>, x: int, key: IngressKey) {
    && 0 <= x < |ops| && ops[x] == OpRetire(key, true) && key in Before(ops, x).keys
    && forall y :: x < y < |ops| ==> ops[y] != OpRetire(key, false)
  }

  /** Transaction x reports the key lost, and commits. */
  ghost predicate Loses(ops: seq<DbOp>, x: int, key: IngressKey) {
    0 <= x < |ops| && ops[x] == OpReportLost(key) && ReportLost(Before(ops, x), key).Ok?
  }

  /** Transaction x publishes a report for the key: the key is there and not retired, and so is the publisher. */
  ghost predicate Publishes(ops: seq<DbOp>, x: int, key: IngressKey) {
    && 0 <= x < |ops| && ops[x].OpSetReport? && ops[x].key == key
    && key in Before(ops, x).keys && !Before(ops, x).keys[key].retired
    && (ops[x].publisher.Some? ==> ops[x].publisher.value < |Before(ops, x).invocations|)
  }

  /** A key is there if it was ever inserted, with the start block it was inserted with. */
  lemma {:induction false} StartIsInserted(ops: seq<DbOp>, key: IngressKey)
    ensures key in Now(ops).keys <==> exists x :: Inserts(ops, x, key)
    ensures forall x :: Inserts(ops, x, key) ==>
              key in Now(ops).keys && Now(ops).keys[key].startBlock == ops[x].startBlock
  {
    if |ops| > 0 {
      var front := ops[..|ops| - 1];
      LastActs(ops);
      StartIsInserted(front, key);
      ApplyExtends(Now(front), ops[|ops| - 1]);
      forall x | 0 <= x < |front|
        ensures Inserts(front, x, key) <==> Inserts(ops, x, key)
      {
      }
      if key in Now(front).keys {
        var x :| Inserts(front, x, key);
        assert Inserts(ops, x, key);
      } else if key in Now(ops).keys {
        assert Inserts(ops, |front|, key);
      }
    }
  }

  /** A key is retired if and only if it was retired and not unretired since. */
  lemma {:induction false} RetiredIffLastSaid(ops: seq<DbOp>, key: IngressKey)
    ensures (key in Now(ops).keys && Now(ops).keys[key].retired) <==> exists x :: RetiresForGood(ops, x, key)
  {
    if |ops| > 0 {
      var front, op := ops[..|ops| - 1], ops[|ops| - 1];
      LastActs(ops);
      RetiredIffLastSaid(front, key);
      forall x | 0 <= x < |front|
        ensures RetiresForGood(ops, x, key) <==> RetiresForGood(front, x, key) && op != OpRetire(key, false)
      {
      }
      if exists x :: RetiresForGood(front, x, key) {
        var x :| RetiresForGood(front, x, key);
        assert RetiresForGood(ops, x, key) <==> op != OpRetire(key, false);
      }
      assert RetiresForGood(ops, |front|, key) <==> op == OpRetire(key, true) && key in Now(front).keys;
    }
  }

  lemma LastLoses(ops: seq<DbOp>, key: IngressKey)
    requires |ops| > 0
    ensures var front, db, db' := ops[..|ops| - 1], Now(ops[..|ops| - 1]), Now(ops);
            && ((key in db'.keys && db'.keys[key].lost) <==>
                (key in db.keys && db.keys[key].lost) || Loses(ops, |front|, key))
            && forall x :: 0 <= x < |front| ==> (Loses(ops, x, key) <==> Loses(front, x, key))
  {
    LastActs(ops);
  }

  /** A key is lost if and only if a loss report for it has committed. */
  lemma {:induction false} LostIffReported(ops: seq<DbOp>, key: IngressKey)
    ensures (key in Now(ops).keys && Now(ops).keys[key].lost) <==> exists x :: Loses(ops, x, key)
  {
    if |ops| > 0 {
      var front := ops[..|ops| - 1];
      LastLoses(ops, key);
      LostIffReported(front, key);
      if exists x :: Loses(front, x, key) {
        var x :| Loses(front, x, key);
        assert Loses(ops, x, key);
      }
    }
  }

  /** A key's expiry is the largest one published for it, or 0. */
  lemma {:induction false} ExpiryIsLargestPublished(ops: seq<DbOp>, key: IngressKey)
    requires key in Now(ops).keys
    ensures forall x :: Publishes(ops, x, key) ==> ops[x].expiry <= Now(ops).keys[key].pubkeyExpiry
    ensures Now(ops).keys[key].pubkeyExpiry == 0 ||
            exists x :: Publishes(ops, x, key) && ops[x].expiry == Now(ops).keys[key].pubkeyExpiry
  {
    if |ops| > 0 {
      var front, op := ops[..|ops| - 1], ops[|ops| - 1];
      LastActs(ops);
      forall x | 0 <= x < |front|
        ensures Publishes(ops, x, key) <==> Publishes(front, x, key)
      {
      }
      if key in Now(front).keys {
        ExpiryIsLargestPublished(front, key);
        if Now(front).keys[key].pubkeyExpiry != 0 {
          var x :| Publishes(front, x, key) && front[x].expiry == Now(front).keys[key].pubkeyExpiry;
          assert Publishes(ops, x, key);
        }
        if Now(ops).keys[key].pubkeyExpiry != Now(front).keys[key].pubkeyExpiry {
          assert Publishes(ops, |front|, key);
        }
      } else {
        assert forall x :: 0 <= x < |front| ==> !Publishes(front, x, key) by { NeverPublished(front, key); }
      }
    }
  }

  lemma {:induction false} NeverPublished(ops: seq<DbOp>, key: IngressKey)
    requires key !in Now(ops).keys
    ensures forall x :: 0 <= x <= |ops| ==> key !in Before(ops, x).keys
  {
    assert ops[..|ops|] == ops;
    if |ops| > 0 {
      LastActs(ops);
      ApplyExtends(Now(ops[..|ops| - 1]), ops[|ops| - 1]);
      NeverPublished(ops[..|ops| - 1], key);
    }
  }

  // ---- the report rows ---------------------------------------------------------------------------------------------

  /** Transaction x publishes or removes a report under this id. */
  ghost predicate Touches(ops: seq<DbOp>, x: int, id: ReportId) {
    && 0 <= x < |ops|
    && (ops[x] == OpRemoveReport(id) || (ops[x].OpSetReport? && ops[x].reportId == id && Publishes(ops, x, ops[x].key)))
  }

  /** Transaction x publishes a report under this id, and no later one supersedes or removes it. */
  ghost predicate StillPublished(ops: seq<DbOp>, x: int, id: ReportId) {
    0 <= x < |ops| && ops[x].OpSetReport? && Touches(ops, x, id) && forall y :: x < y < |ops| ==> !Touches(ops, y, id)
  }

  ghost predicate Says(db: Db, id: ReportId, op: DbOp)
    requires op.OpSetReport?
  {
    && id in db.reports && db.reports[id].key == op.key && db.reports[id].iid == op.publisher
    && db.reports[id].pubkeyExpiry == op.expiry
  }

  lemma LastTouches(ops: seq<DbOp>, id: ReportId)
    requires |ops| > 0
    ensures var front, op, db, db' := ops[..|ops| - 1], ops[|ops| - 1], Now(ops[..|ops| - 1]), Now(ops);
            && (if !Touches(ops, |front|, id) then
                  (id in db'.reports <==> id in db.reports) && (id in db.reports ==> db'.reports[id] == db.reports[id])
                else if op.OpSetReport? then Says(db', id, op)
                else id !in db'.reports)
            && forall x :: 0 <= x < |front| ==> (Touches(ops, x, id) <==> Touches(front, x, id))
  {
    LastActs(ops);
  }

  lemma StillPublishedOn(ops: seq<DbOp>, x: nat, id: ReportId)
    requires |ops| > 0 && x < |ops| - 1
    ensures StillPublished(ops, x, id) <==>
            StillPublished(ops[..|ops| - 1], x, id) && !Touches(ops, |ops| - 1, id)
  {
    var front := ops[..|ops| - 1];
    LastTouches(ops, id);
    assert forall y :: 0 <= y < |front| ==> (Touches(ops, y, id) <==> Touches(front, y, id));
    assert Touches(ops, x, id) <==> Touches(front, x, id);
  }

  /** A report is there if and only if it was published and not removed, and it says what was published last. */
  lemma {:induction false} ReportIsLastPublished(ops: seq<DbOp>, id: ReportId)
    ensures id in Now(ops).reports <==> exists x :: StillPublished(ops, x, id)
    ensures forall x :: StillPublished(ops, x, id) ==> Says(Now(ops), id, ops[x])
  {
    if |ops| > 0 {
      var front, n := ops[..|ops| - 1], |ops| - 1;
      LastTouches(ops, id);
      ReportIsLastPublished(front, id);
      forall x | 0 <= x < n
        ensures StillPublished(ops, x, id) <==> StillPublished(front, x, id) && !Touches(ops, n, id)
      {
        StillPublishedOn(ops, x, id);
      }
      assert StillPublished(ops, n, id) <==> Touches(ops, n, id) && ops[n].OpSetReport?;
      if exists x :: StillPublished(front, x, id) {
        var x :| StillPublished(front, x, id);
        assert StillPublished(ops, x, id) <==> !Touches(ops, n, id);
      }
    }
  }
}
