/**
 * What `covers_block_index` and `next_needed_block_index` (fog/recovery_db_iface/src/types.rs) mean in the tables of
 * every run, and what the view server's count therefore waits for: an active key from its start block on, a
 * retired one below its expiry, a lost one for what was stored of it.
 */
module CoverageRuns {
  import opened Prelude
  import opened FogView
  import opened RecoveryTables
  import opened IngestProtocol
  import opened Contiguity
  import opened ContiguityRuns
  import opened ProtocolTheorems
  import opened BlockTracker
  import opened ViewServer

  /** By the tables, this key is to provide this block. */
  ghost predicate Due(db: Db, key: IngressKey, block: nat) {
    && key in db.keys && db.keys[key].startBlock <= block
    && if db.keys[key].lost then HasRow(db.blocks, key, block)
       else db.keys[key].retired ==> block < db.keys[key].pubkeyExpiry
  }

  /** A key's record covers exactly the blocks it is to provide. */
  lemma CoversIffDue(t: Trace, n: nat, key: IngressKey, block: nat)
    requires IsRun(t) && n < |t.worlds| && key in t.worlds[n].db.keys
    ensures RecordOf(t.worlds[n].db, key).CoversBlockIndex(block) <==> Due(t.worlds[n].db, key, block)
  {
    StoredBlocksAreAnInterval(t, n, key, block);
  }

  /** Nothing more is needed of a key if and only if it is lost, or it is retired and every block below its expiry
      is stored. */
  lemma NothingNeededIff(t: Trace, n: nat, key: IngressKey)
    requires IsRun(t) && n < |t.worlds| && key in t.worlds[n].db.keys
    ensures var db := t.worlds[n].db;
            RecordOf(db, key).NextNeededBlockIndex().None? <==>
            || db.keys[key].lost
            || (db.keys[key].retired && forall b: nat :: db.keys[key].startBlock <= b < db.keys[key].pubkeyExpiry ==>
                                          HasRow(db.blocks, key, b))
  {
    var db := t.worlds[n].db;
    forall b: nat
      ensures HasRow(db.blocks, key, b) <==>
              LastScanned(db.blocks, key).Some? && db.keys[key].startBlock <= b <= LastScanned(db.blocks, key).value
    {
      StoredBlocksAreAnInterval(t, n, key, b);
    }
    RunInv(t, n);
    ContiguousMeans(db, key, 0);
    var next := if LastScanned(db.blocks, key).Some? then LastScanned(db.blocks, key).value + 1
                else db.keys[key].startBlock;
    assert !HasRow(db.blocks, key, next);
  }

  /** What is needed next of a key is the least block it is to provide that is not stored. */
  lemma NeededIsLeastDue(t: Trace, n: nat, key: IngressKey)
    requires IsRun(t) && n < |t.worlds| && key in t.worlds[n].db.keys
    ensures var db := t.worlds[n].db;
            match RecordOf(db, key).NextNeededBlockIndex()
            case Some(x) =>
              && Due(db, key, x) && !HasRow(db.blocks, key, x)
              && forall b: nat :: b < x && Due(db, key, b) ==> HasRow(db.blocks, key, b)
            case None => forall b: nat :: Due(db, key, b) ==> HasRow(db.blocks, key, b)
  {
    NextNeededIsLeastUnstored(t, n, key);
    forall b: nat
      ensures RecordOf(t.worlds[n].db, key).CoversBlockIndex(b) <==> Due(t.worlds[n].db, key, b)
    {
      CoversIffDue(t, n, key, b);
    }
  }

  // ---- what the view server waits for ----------------------------------------------------------------------------

  predicate LoadedUpTo(processed: Progress, key: IngressKey, block: nat) {
    key in processed && block <= processed[key]
  }

  /** The block is to be provided by some key, for which it is not loaded. */
  ghost predicate Awaited(db: Db, processed: Progress, block: nat) {
    exists k :: Due(db, k, block) && !LoadedUpTo(processed, k, block)
  }

  /** Some key is loaded this far. */
  ghost predicate Heard(processed: Progress, block: nat) {
    exists k :: LoadedUpTo(processed, k, block)
  }

  /** A count moves over exactly the blocks that some key is loaded to and that, by the tables as they were when the
      records were read, no key still has to provide. So no count is held up by a key that is retired and expired,
      nor by a lost one for what was never stored. */
  lemma CountStopsAtFirstAwaited(t: Trace, r: ViewRun, m: nat)
    requires IsRun(t) && IsViewRun(t, r) && m < |r.steps| && r.steps[m].act.CountBlocks?
    ensures r.viewers[m].seen < |t.worlds| && r.viewers[m].count <= r.viewers[m + 1].count
    ensures var db, v, count := t.worlds[r.viewers[m].seen].db, r.viewers[m], r.viewers[m + 1].count;
            && (forall b :: v.count <= b < count ==> Heard(v.processed, b) && !Awaited(db, v.processed, b))
            && (!Heard(v.processed, count) || Awaited(db, v.processed, count))
  {
    var v, v', n := r.viewers[m], r.viewers[m + 1], r.steps[m].at;
    assert ViewMoves(t, v, r.steps[m], v');
    ViewRunInv(t, r, m, n);
    forall b: nat
      ensures Passable(v.processed, v.records, b) <==>
              Heard(v.processed, b) && !Awaited(t.worlds[v.seen].db, v.processed, b)
    {
      PassableIff(t, v, b);
    }
  }

  lemma PassableIff(t: Trace, v: Viewer, b: nat)
    requires IsRun(t) && v.seen < |t.worlds| && IsRecordsOf(t.worlds[v.seen].db, v.records)
    ensures Passable(v.processed, v.records, b) <==>
            Heard(v.processed, b) && !Awaited(t.worlds[v.seen].db, v.processed, b)
  {
    var db := t.worlds[v.seen].db;
    if Known(v.processed, b) {
      var k :| k in v.processed && b <= v.processed[k];
      assert LoadedUpTo(v.processed, k, b);
    }
    if Heard(v.processed, b) {
      var k :| LoadedUpTo(v.processed, k, b);
      assert k in v.processed && b <= v.processed[k];
    }
    if Awaited(db, v.processed, b) {
      var k :| Due(db, k, b) && !LoadedUpTo(v.processed, k, b);
      var i :| 0 <= i < |v.records| && v.records[i].key == k;
      CoversIffDue(t, v.seen, k, b);
      assert Blocks(v.processed, v.records[i], b);
    } else {
      forall i | 0 <= i < |v.records|
        ensures !Blocks(v.processed, v.records[i], b)
      {
        CoversIffDue(t, v.seen, v.records[i].key, b);
        assert !Due(db, v.records[i].key, b) || LoadedUpTo(v.processed, v.records[i].key, b);
      }
    }
  }

  /** A block is fetched for a key only if the key is to provide it, after all earlier ones. */
  lemma FetchIsNextDue(t: Trace, r: ViewRun, m: nat)
    requires IsRun(t) && IsViewRun(t, r) && m < |r.steps| && r.steps[m].act.FetchBlock?
    ensures r.viewers[m].seen < |t.worlds| && r.steps[m].at < |t.worlds| && |r.viewers[m + 1].queue| > 0
    ensures var v, queue := r.viewers[m], r.viewers[m + 1].queue;
            var f := queue[|queue| - 1];
            && queue == v.queue + [f] && Due(t.worlds[v.seen].db, f.key, f.block)
            && HasRow(t.worlds[r.steps[m].at].db.blocks, f.key, f.block)
            && !LoadedUpTo(v.fetched, f.key, f.block)
            && forall b :: t.worlds[v.seen].db.keys[f.key].startBlock <= b < f.block ==> LoadedUpTo(v.fetched, f.key, b)
  {
    var v, n := r.viewers[m], r.steps[m].at;
    assert ViewMoves(t, v, r.steps[m], r.viewers[m + 1]);
    ViewRunInv(t, r, m, n);
    var rec := v.records[r.steps[m].act.i];
    CoversIffDue(t, v.seen, rec.key, NextFor(v.fetched, rec).value);
  }

  /** This step loads this block for this key. */
  ghost predicate Loads(r: ViewRun, x: nat, key: IngressKey, block: nat) {
    && x < |r.steps| && x < |r.viewers| && r.steps[x].act.LoadBlock?
    && |r.viewers[x].queue| > 0 && r.viewers[x].queue[0] == Fetched(key, block)
  }

  lemma LoadGoesOn(t: Trace, r: ViewRun, m: nat, n: nat, key: IngressKey, block: nat)
    requires IsRun(t) && IsViewRun(t, r) && m < |r.steps| && LoadedUpTo(r.viewers[m + 1].processed, key, block)
    requires n < |t.worlds| && key in t.worlds[n].db.keys && t.worlds[n].db.keys[key].startBlock <= block
    ensures LoadedUpTo(r.viewers[m].processed, key, block) || Loads(r, m, key, block)
  {
    assert ViewMoves(t, r.viewers[m], r.steps[m], r.viewers[m + 1]);
    if r.steps[m].act.LoadBlock? {
      LoadsAreConsecutive(t, r, m);
      LaterWorldExtends(t, Min(n, r.steps[m].at), Max(n, r.steps[m].at));
    }
  }

  /** What counts as loaded for a key was loaded, block by block from its start block. */
  lemma {:induction false} LoadedOneByOne(t: Trace, r: ViewRun, m: nat, n: nat, key: IngressKey, block: nat)
    returns (x: nat)
    requires IsRun(t) && IsViewRun(t, r) && m < |r.viewers| && LoadedUpTo(r.viewers[m].processed, key, block)
    requires n < |t.worlds| && key in t.worlds[n].db.keys && t.worlds[n].db.keys[key].startBlock <= block
    ensures x < m && Loads(r, x, key, block)
    decreases m
  {
    LoadGoesOn(t, r, m - 1, n, key, block);
    if LoadedUpTo(r.viewers[m - 1].processed, key, block) {
      x := LoadedOneByOne(t, r, m - 1, n, key, block);
    } else {
      x := m - 1;
    }
  }
}
