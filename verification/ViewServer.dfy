/**
 * The view server's two threads (fog/view/server/src/db_fetcher.rs and server.rs). The fetcher reads the key
 * records, fetches for each of them the next block they cover, and queues it; the worker loads queued blocks
 * into the enclave and counts with whatever records were read last. A view server runs beside a run of the
 * ingest protocol; `at` is the world in which a step of it is taken.
 */
module ViewServer {
  import opened FogView
  import opened RecoveryTables
  import opened TableLaws
  import opened IngestProtocol
  import opened Contiguity
  import opened ContiguityRuns
  import opened ProtocolTheorems
  import opened BlockTracker

  datatype Fetched = Fetched(key: IngressKey, block: nat)

  /** `records` were read in world `seen`; `fetched` and `processed` are the trackers of the two threads. */
  datatype Viewer = Viewer(
    seen: nat, records: seq<TrackedKey>, fetched: Progress, queue: seq<Fetched>, processed: Progress, count: nat)

  datatype ViewAct = ReadKeys(records: seq<TrackedKey>) | FetchBlock(i: nat) | LoadBlock | CountBlocks
  datatype ViewStep = ViewStep(at: nat, act: ViewAct)
  datatype ViewRun = ViewRun(viewers: seq<Viewer>, steps: seq<ViewStep>)

  const NEW_VIEWER := Viewer(0, [], map[], [], map[], 0)

  /** get_ingress_key_records: one record per key. */
  ghost predicate IsRecordsOf(db: Db, records: seq<TrackedKey>) {
    && (forall i :: 0 <= i < |records| ==>
          records[i].key in db.keys && records[i].record == RecordOf(db, records[i].key))
    && (forall k :: k in db.keys ==> exists i :: 0 <= i < |records| && records[i].key == k)
  }

  ghost predicate ViewMoves(t: Trace, v: Viewer, step: ViewStep, v': Viewer) {
    && step.at < |t.worlds|
    && var db := t.worlds[step.at].db;
    match step.act
    case ReadKeys(records) => IsRecordsOf(db, records) && v' == v.(seen := step.at, records := records)
    case FetchBlock(i) =>
      && i < |v.records|
      && var key, next := v.records[i].key, NextFor(v.fetched, v.records[i]);
      && next.Some? && HasRow(db.blocks, key, next.value)
      && v' == v.(fetched := v.fetched[key := next.value], queue := v.queue + [Fetched(key, next.value)])
    case LoadBlock =>
      && |v.queue| > 0
      && v' == v.(queue := v.queue[1..], processed := v.processed[v.queue[0].key := v.queue[0].block])
    case CountBlocks => v' == v.(count := v'.count) && CountsTo(v.processed, v.records, v.count, v'.count)
  }

  ghost predicate IsViewRun(t: Trace, r: ViewRun) {
    && |r.viewers| == |r.steps| + 1
    && r.viewers[0] == NEW_VIEWER
    && (forall m :: 0 <= m < |r.steps| ==> ViewMoves(t, r.viewers[m], r.steps[m], r.viewers[m + 1]))
    && (forall m, n :: 0 <= m < n < |r.steps| ==> r.steps[m].at <= r.steps[n].at)
  }

  // ---- what is fetched, queued and loaded -----------------------------------------------------------------------

  /** The block that follows what a tracker has of a key. */
  function NextOf(db: Db, progress: Progress, key: IngressKey): nat
    requires key in db.keys
  {
    if key in progress then progress[key] + 1 else db.keys[key].startBlock
  }

  /** Loading the queue in order skips and repeats nothing. */
  ghost predicate InOrder(db: Db, processed: Progress, queue: seq<Fetched>)
    decreases |queue|
  {
    |queue| == 0 ||
    (&& queue[0].key in db.keys && queue[0].block == NextOf(db, processed, queue[0].key)
     && InOrder(db, processed[queue[0].key := queue[0].block], queue[1..]))
  }

  /** What the worker will have loaded when the queue is empty. */
  function Drained(processed: Progress, queue: seq<Fetched>): Progress
    decreases |queue|
  {
    if |queue| == 0 then processed else Drained(processed[queue[0].key := queue[0].block], queue[1..])
  }

  lemma {:induction false} QueueGrows(db: Db, processed: Progress, queue: seq<Fetched>, f: Fetched)
    requires InOrder(db, processed, queue)
    requires f.key in db.keys && f.block == NextOf(db, Drained(processed, queue), f.key)
    ensures InOrder(db, processed, queue + [f])
    ensures Drained(processed, queue + [f]) == Drained(processed, queue)[f.key := f.block]
    decreases |queue|
  {
    if |queue| == 0 {
      assert (queue + [f])[1..] == [];
    } else {
      QueueGrows(db, processed[queue[0].key := queue[0].block], queue[1..], f);
      assert (queue + [f])[1..] == queue[1..] + [f];
    }
  }

  lemma {:induction false} InOrderLater(db: Db, db': Db, processed: Progress, queue: seq<Fetched>)
    requires ExtendsMany(db, db') && InOrder(db, processed, queue)
    ensures InOrder(db', processed, queue)
    decreases |queue|
  {
    if |queue| > 0 {
      InOrderLater(db, db', processed[queue[0].key := queue[0].block], queue[1..]);
    }
  }

  /** The worker is behind the fetcher. */
  ghost predicate Behind(db: Db, processed: Progress, fetched: Progress) {
    forall k :: k in processed ==>
      k in db.keys && k in fetched && db.keys[k].startBlock <= processed[k] <= fetched[k]
  }

  lemma {:induction false} BehindDrained(db: Db, processed: Progress, queue: seq<Fetched>)
    requires InOrder(db, processed, queue)
    requires forall k :: k in processed ==> k in db.keys && db.keys[k].startBlock <= processed[k]
    ensures Behind(db, processed, Drained(processed, queue))
    decreases |queue|
  {
    if |queue| > 0 {
      var next := processed[queue[0].key := queue[0].block];
      BehindDrained(db, next, queue[1..]);
      forall k | k in processed
        ensures k in Drained(processed, queue) && processed[k] <= Drained(processed, queue)[k]
      {
        assert k in next && processed[k] <= next[k];
      }
    }
  }

  /** Blocks are fetched only when they are stored. */
  ghost predicate FetchesStored(fetched: Progress, db: Db) {
    forall k :: k in fetched ==> k in db.keys && db.keys[k].startBlock <= fetched[k] && HasRow(db.blocks, k, fetched[k])
  }

  ghost predicate Covered(records: seq<TrackedKey>, key: IngressKey, block: nat) {
    exists i :: 0 <= i < |records| && records[i].key == key && records[i].record.CoversBlockIndex(block)
  }

  /** Every fetched block is covered by the records read last, or was stored when they were read. */
  ghost predicate FetchesCovered(v: Viewer, db: Db, dbSeen: Db) {
    forall k, b :: k in v.fetched && k in db.keys && db.keys[k].startBlock <= b <= v.fetched[k] ==>
      Covered(v.records, k, b) || HasRow(dbSeen.blocks, k, b)
  }

  ghost predicate ViewInv(t: Trace, n: nat, v: Viewer)
    requires n < |t.worlds|
  {
    && v.seen <= n && IsRecordsOf(t.worlds[v.seen].db, v.records)
    && InOrder(t.worlds[n].db, v.processed, v.queue) && Drained(v.processed, v.queue) == v.fetched
    && Behind(t.worlds[n].db, v.processed, v.fetched)
    && FetchesStored(v.fetched, t.worlds[n].db)
    && FetchesCovered(v, t.worlds[n].db, t.worlds[v.seen].db)
  }

  /** What was fetched up to a block is stored up to it. */
  lemma FetchedIsStored(t: Trace, n: nat, fetched: Progress, key: IngressKey, block: nat)
    requires IsRun(t) && n < |t.worlds| && FetchesStored(fetched, t.worlds[n].db)
    requires key in fetched && t.worlds[n].db.keys[key].startBlock <= block <= fetched[key]
    ensures HasRow(t.worlds[n].db.blocks, key, block)
  {
    RunInv(t, n);
    ContiguousMeans(t.worlds[n].db, key, block);
    ContiguousMeans(t.worlds[n].db, key, fetched[key]);
  }

  lemma ViewInvLater(t: Trace, m: nat, n: nat, v: Viewer)
    requires IsRun(t) && m <= n < |t.worlds| && ViewInv(t, m, v)
    ensures ViewInv(t, n, v)
  {
    LaterWorldExtends(t, m, n);
    InOrderLater(t.worlds[m].db, t.worlds[n].db, v.processed, v.queue);
    forall k | k in v.fetched
      ensures HasRow(t.worlds[n].db.blocks, k, v.fetched[k])
    {
    }
  }

  lemma ReadKeeps(t: Trace, n: nat, v: Viewer, step: ViewStep, v': Viewer)
    requires IsRun(t) && n < |t.worlds| && ViewInv(t, n, v)
    requires step.at == n && step.act.ReadKeys? && ViewMoves(t, v, step, v')
    ensures ViewInv(t, n, v')
  {
    forall k, b | k in v'.fetched && k in t.worlds[n].db.keys && t.worlds[n].db.keys[k].startBlock <= b <= v'.fetched[k]
      ensures HasRow(t.worlds[n].db.blocks, k, b)
    {
      FetchedIsStored(t, n, v.fetched, k, b);
    }
  }

  lemma FetchKeeps(t: Trace, n: nat, v: Viewer, step: ViewStep, v': Viewer)
    requires IsRun(t) && n < |t.worlds| && ViewInv(t, n, v)
    requires step.at == n && step.act.FetchBlock? && ViewMoves(t, v, step, v')
    ensures ViewInv(t, n, v')
  {
    var db, rec := t.worlds[n].db, v.records[step.act.i];
    LaterWorldExtends(t, v.seen, n);
    var next := NextFor(v.fetched, rec).value;
    QueueGrows(db, v.processed, v.queue, Fetched(rec.key, next));
    forall k, b | k in v'.fetched && k in db.keys && db.keys[k].startBlock <= b <= v'.fetched[k]
      ensures Covered(v'.records, k, b) || HasRow(t.worlds[v.seen].db.blocks, k, b)
    {
      if k == rec.key && b == next {
        assert v'.records[step.act.i].record.CoversBlockIndex(b);
      } else {
        assert Covered(v.records, k, b) || HasRow(t.worlds[v.seen].db.blocks, k, b);
      }
    }
  }

  lemma LoadKeeps(t: Trace, n: nat, v: Viewer, step: ViewStep, v': Viewer)
    requires IsRun(t) && n < |t.worlds| && ViewInv(t, n, v)
    requires step.at == n && step.act.LoadBlock? && ViewMoves(t, v, step, v')
    ensures ViewInv(t, n, v')
    ensures v.queue[0].key in v.processed ==> v.queue[0].block == v.processed[v.queue[0].key] + 1
  {
    BehindDrained(t.worlds[n].db, v'.processed, v'.queue);
  }

  /** In every view run: both threads advance block by block, the worker behind the fetcher, over stored
      blocks only; every fetched block is covered by the last records or was stored when they were read. */
  lemma {:induction false} ViewRunInv(t: Trace, r: ViewRun, m: nat, n: nat)
    requires IsRun(t) && IsViewRun(t, r) && m < |r.viewers| && n < |t.worlds| && (m > 0 ==> r.steps[m - 1].at <= n)
    ensures ViewInv(t, n, r.viewers[m])
    decreases m
  {
    if m == 0 {
      assert IsRecordsOf(t.worlds[0].db, []);
    } else {
      var step, v, v' := r.steps[m - 1], r.viewers[m - 1], r.viewers[m];
      assert ViewMoves(t, v, step, v');
      ViewRunInv(t, r, m - 1, step.at);
      match step.act {
        case ReadKeys(_) => ReadKeeps(t, step.at, v, step, v');
        case FetchBlock(_) => FetchKeeps(t, step.at, v, step, v');
        case LoadBlock => LoadKeeps(t, step.at, v, step, v');
        case CountBlocks =>
      }
      ViewInvLater(t, step.at, n, v');
    }
  }

  /** The tracker's assertion that no block is skipped or repeated never fires. */
  lemma LoadsAreConsecutive(t: Trace, r: ViewRun, m: nat)
    requires IsRun(t) && IsViewRun(t, r) && m < |r.steps| && r.steps[m].act.LoadBlock?
    ensures r.steps[m].at < |t.worlds| && |r.viewers[m].queue| > 0
    ensures var db, v := t.worlds[r.steps[m].at].db, r.viewers[m];
            var f := v.queue[0];
            f.key in db.keys && f.block == NextOf(db, v.processed, f.key) && HasRow(db.blocks, f.key, f.block)
  {
    var n, v := r.steps[m].at, r.viewers[m];
    assert ViewMoves(t, v, r.steps[m], r.viewers[m + 1]);
    ViewRunInv(t, r, m, n);
    LoadKeeps(t, n, v, r.steps[m], r.viewers[m + 1]);
    FetchedIsStored(t, n, v.fetched, v.queue[0].key, v.queue[0].block);
  }
}
