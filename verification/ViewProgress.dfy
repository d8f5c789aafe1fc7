/**
 * What the view server's block count promises. A client that is told `count` takes its balance up to that
 * block for complete, so every output below it must be loaded, or its block reported missed. Counts are made
 * with key records read earlier; they are right exactly when those records overlook no key that was promised
 * for a block they pass.
 */
module ViewProgress {
  import opened FogView
  import opened RecoveryTables
  import opened TableLaws
  import opened StartBlocks
  import opened Promises
  import opened ControllerState
  import opened IngestProtocol
  import opened Contiguity
  import opened ContiguityRuns
  import opened ProtocolTheorems
  import opened LedgerRecords
  import opened BlockTracker
  import opened ViewServer

  // ---- start blocks lie within the ledger -----------------------------------------------------------------

  ghost predicate StartsWithin(db: Db, height: nat) {
    && (forall k :: k in db.keys ==> db.keys[k].startBlock <= height)
    && (forall r :: 0 <= r < |db.blocks| ==> db.blocks[r].block < height)
  }

  ghost predicate PhaseWithin(s: Server, height: nat) {
    s.pc.Activating? && s.pc.phase.Inserting? ==> s.pc.phase.startBlock <= height
  }

  ghost predicate StartsInv(w: World) {
    StartsWithin(w.db, |w.ledger|) && forall i :: 0 <= i < |w.servers| ==> PhaseWithin(w.servers[i], |w.ledger|)
  }

  /** An action reaches the insert phase only with a start within the ledger. */
  lemma ActPhaseWithin(w: World, i: ServerId, act: Action)
    requires StartsInv(w) && i < |w.servers| && ActEnabled(w, i, act)
    ensures PhaseWithin(Act(w, i, act).server, |w.ledger|)
  {
    assert PhaseWithin(w.servers[i], |w.ledger|);
    if act.AReadHighest? {
      HighestMeans(w.db.blocks);
    }
  }

  /** The only new key is the one the server is inserting. */
  lemma ActStartsWithin(w: World, i: ServerId, act: Action)
    requires StartsInv(w) && i < |w.servers| && ActEnabled(w, i, act)
    ensures forall k :: k in Act(w, i, act).db.keys ==> Act(w, i, act).db.keys[k].startBlock <= |w.ledger|
  {
    assert PhaseWithin(w.servers[i], |w.ledger|);
    ActIsOp(w, i, act);
    ApplyExtends(w.db, ActOp(w, i, act));
  }

  lemma OperatorKeepsStarts(db: Db, op: DbOp, height: nat)
    requires IsOperatorOp(op) && forall k :: k in db.keys ==> db.keys[k].startBlock <= height
    ensures forall k :: k in DbApply(db, op).keys ==> DbApply(db, op).keys[k].startBlock <= height
  {
  }

  lemma StepStartsWithin(w: World, step: Step, w': World)
    requires Enabled(w, step) && w' == Apply(w, step) && StartsInv(w)
    requires forall r :: 0 <= r < |w'.db.blocks| ==> w'.db.blocks[r].block < |w'.ledger|
    ensures StartsInv(w')
  {
    match step
    case LedgerGrows(_) =>
    case Operator(op) => OperatorKeepsStarts(w.db, op, |w.ledger|);
    case By(i, act) =>
      ActPhaseWithin(w, i, act);
      ActStartsWithin(w, i, act);
  }

  /** In every run, keys start and rows stand within the ledger. */
  lemma {:induction false} RunStarts(t: Trace, n: nat)
    requires IsRun(t) && n < |t.worlds|
    ensures StartsInv(t.worlds[n])
  {
    RunLedgerInv(t, n);
    assert forall r :: 0 <= r < |t.worlds[n].db.blocks| ==> RowFaithful(t.worlds[n].ledger, t.worlds[n].db.blocks[r]);
    if n > 0 {
      RunStarts(t, n - 1);
      StepStartsWithin(t.worlds[n - 1], t.steps[n - 1], t.worlds[n]);
    }
  }

  lemma {:induction false} LedgerOnlyGrows(t: Trace, m: nat, n: nat)
    requires IsRun(t) && m <= n < |t.worlds|
    ensures t.worlds[m].ledger <= t.worlds[n].ledger
    decreases n
  {
    if m < n {
      LedgerOnlyGrows(t, m, n - 1);
      var w, step := t.worlds[n - 1], t.steps[n - 1];
      assert t.worlds[n] == Apply(w, step);
    }
  }

  // ---- promises over runs ---------------------------------------------------------------------------------------

  /** No lost key is published again in the first n steps. */
  ghost predicate NoLostPublish(t: Trace, n: nat)
    requires IsRun(t)
  {
    forall m :: 0 <= m < n && m < |t.steps| ==> !RaisesLostKey(t.worlds[m].db, StepOp(t.worlds[m], t.steps[m]))
  }

  lemma {:induction false} RunPromises(t: Trace, n: nat)
    requires IsRun(t) && n < |t.worlds| && NoLostPublish(t, n)
    ensures AllPromisesKept(t.worlds[n].db)
  {
    if n > 0 {
      RunPromises(t, n - 1);
      StepIsOp(t.worlds[n - 1], t.steps[n - 1]);
      ApplyKeepsPromises(t.worlds[n - 1].db, StepOp(t.worlds[n - 1], t.steps[n - 1]));
    }
  }

  /** Step a appends a block while a report for the key promises it: a client may have used the key in it. */
  ghost predicate Promised(t: Trace, a: nat, key: IngressKey)
    requires IsRun(t) && a < |t.steps|
  {
    && t.steps[a].LedgerGrows?
    && key in t.worlds[a].db.keys && |t.worlds[a].ledger| < t.worlds[a].db.keys[key].pubkeyExpiry
  }

  /** From then on the promise is answered: the key's record covers the block or it is reported missed. */
  lemma PromiseAnswered(t: Trace, a: nat, n: nat, key: IngressKey)
    requires IsRun(t) && a <= n < |t.worlds| && a < |t.steps| && NoLostPublish(t, n) && Promised(t, a, key)
    ensures key in t.worlds[n].db.keys && t.worlds[n].db.keys[key].startBlock <= |t.worlds[a].ledger|
    ensures Answered(t.worlds[n].db, key, |t.worlds[a].ledger|)
  {
    RunStarts(t, a);
    RunPromises(t, n);
    LaterWorldExtends(t, a, n);
    assert PromiseKept(t.worlds[n].db, key, t.worlds[n].db.keys[key].pubkeyExpiry);
  }

  // ---- counting --------------------------------------------------------------------------------------------------

  ghost predicate Loaded(v: Viewer, db: Db, key: IngressKey, block: nat) {
    key in db.keys && key in v.processed && db.keys[key].startBlock <= block <= v.processed[key]
  }

  /** The block is loaded for the key, or reported missed. */
  ghost predicate Accounted(v: Viewer, db: Db, key: IngressKey, block: nat) {
    Loaded(v, db, key, block) || InMissedRange(db.events, block)
  }

  /** Every block below the count is accounted for, for every key promised when it was appended. */
  ghost predicate Safe(t: Trace, n: nat, v: Viewer)
    requires IsRun(t) && n < |t.worlds|
  {
    forall a, k :: 0 <= a < n && Promised(t, a, k) && |t.worlds[a].ledger| < v.count ==>
      Accounted(v, t.worlds[n].db, k, |t.worlds[a].ledger|)
  }

  /** Moving the count to `to` passes no block, other than a missed one, that was promised for a key whose
      records, as they were read last, do not cover it. */
  ghost predicate NothingOverlooked(t: Trace, n: nat, v: Viewer, to: nat)
    requires IsRun(t) && n < |t.worlds|
  {
    forall a, k :: 0 <= a < n && Promised(t, a, k) && v.count <= |t.worlds[a].ledger| < to
                   && !Covered(v.records, k, |t.worlds[a].ledger|) ==>
      InMissedRange(t.worlds[n].db.events, |t.worlds[a].ledger|)
  }

  /** What is loaded of the blocks a key was promised for is covered by the records read last. */
  lemma LoadedIsCovered(t: Trace, n: nat, v: Viewer, a: nat, key: IngressKey)
    requires IsRun(t) && a < n < |t.worlds| && ViewInv(t, n, v) && Promised(t, a, key)
    requires Loaded(v, t.worlds[n].db, key, |t.worlds[a].ledger|)
    ensures Covered(v.records, key, |t.worlds[a].ledger|)
  {
    var b, db := |t.worlds[a].ledger|, t.worlds[v.seen].db;
    if HasRow(db.blocks, key, b) {
      RunStarts(t, v.seen);
      RunInv(t, v.seen);
      if v.seen <= a {
        LedgerOnlyGrows(t, v.seen, a);
      }
      LaterWorldExtends(t, a, v.seen);
      StoredIsCovered(db, key, b);
      var i :| 0 <= i < |v.records| && v.records[i].key == key;
      assert v.records[i].record.CoversBlockIndex(b);
    }
  }

  /** A stored block before the expiry of its key is covered by the key's record, lost or retired as it may be. */
  lemma StoredIsCovered(db: Db, key: IngressKey, block: nat)
    requires DbOk(db) && HasRow(db.blocks, key, block) && key in db.keys && block < db.keys[key].pubkeyExpiry
    ensures RecordOf(db, key).CoversBlockIndex(block)
  {
    ContiguousMeans(db, key, block);
  }

  /** One count is right, given that the last one was, if and only if it overlooks nothing. */
  lemma CountSafeIff(t: Trace, n: nat, v: Viewer, v': Viewer)
    requires IsRun(t) && n < |t.worlds| && ViewInv(t, n, v) && Safe(t, n, v)
    requires ViewMoves(t, v, ViewStep(n, CountBlocks), v')
    ensures Safe(t, n, v') <==> NothingOverlooked(t, n, v, v'.count)
  {
    var db := t.worlds[n].db;
    if NothingOverlooked(t, n, v, v'.count) {
      forall a, k | 0 <= a < n && Promised(t, a, k) && |t.worlds[a].ledger| < v'.count
        ensures Accounted(v', db, k, |t.worlds[a].ledger|)
      {
        var b := |t.worlds[a].ledger|;
        if b < v.count {
          assert Accounted(v, db, k, b);
        } else if Covered(v.records, k, b) {
          var i :| 0 <= i < |v.records| && v.records[i].key == k && v.records[i].record.CoversBlockIndex(b);
          assert Passable(v.processed, v.records, b) && !Blocks(v.processed, v.records[i], b);
          LaterWorldExtends(t, v.seen, n);
        }
      }
    }
    if Safe(t, n, v') {
      forall a, k | 0 <= a < n && Promised(t, a, k) && v.count <= |t.worlds[a].ledger| < v'.count
                    && !Covered(v.records, k, |t.worlds[a].ledger|)
        ensures InMissedRange(db.events, |t.worlds[a].ledger|)
      {
        assert Accounted(v', db, k, |t.worlds[a].ledger|);
        if Loaded(v, db, k, |t.worlds[a].ledger|) {
          LoadedIsCovered(t, n, v, a, k);
        }
      }
    }
  }

  // ---- over view runs ----------------------------------------------------------------------------------------------

  /** The first m steps count only what overlooks nothing. */
  ghost predicate SoundCounts(t: Trace, r: ViewRun, m: nat)
    requires IsRun(t) && IsViewRun(t, r)
  {
    forall x :: 0 <= x < m && x < |r.steps| && r.steps[x].act.CountBlocks? ==> SoundCount(t, r, x)
  }

  ghost predicate SoundCount(t: Trace, r: ViewRun, x: nat)
    requires IsRun(t) && IsViewRun(t, r) && x < |r.steps|
  {
    r.steps[x].at < |t.worlds| && NothingOverlooked(t, r.steps[x].at, r.viewers[x], r.viewers[x + 1].count)
  }

  /** The count told after step x is right at that moment. */
  ghost predicate SafeAfter(t: Trace, r: ViewRun, x: nat)
    requires IsRun(t) && IsViewRun(t, r) && x < |r.steps|
  {
    r.steps[x].at < |t.worlds| && Safe(t, r.steps[x].at, r.viewers[x + 1])
  }

  lemma KnownIsStored(t: Trace, n: nat, v: Viewer, block: nat)
    requires IsRun(t) && n < |t.worlds| && ViewInv(t, n, v) && Known(v.processed, block)
    ensures block < |t.worlds[n].ledger|
  {
    RunStarts(t, n);
    var k :| k in v.processed && block <= v.processed[k];
    FetchedIsStored(t, n, v.fetched, k, v.processed[k]);
  }

  /** No count goes past the ledger. */
  lemma {:induction false} CountWithinLedger(t: Trace, r: ViewRun, m: nat, n: nat)
    requires IsRun(t) && IsViewRun(t, r) && m < |r.viewers| && n < |t.worlds| && (m > 0 ==> r.steps[m - 1].at <= n)
    ensures r.viewers[m].count <= |t.worlds[n].ledger|
    decreases m
  {
    if m > 0 {
      var step, v, v' := r.steps[m - 1], r.viewers[m - 1], r.viewers[m];
      assert ViewMoves(t, v, step, v');
      CountWithinLedger(t, r, m - 1, step.at);
      LedgerOnlyGrows(t, step.at, n);
      if step.act.CountBlocks? && v.count < v'.count {
        ViewRunInv(t, r, m - 1, step.at);
        assert Passable(v.processed, v.records, v'.count - 1);
        KnownIsStored(t, step.at, v, v'.count - 1);
      }
    }
  }

  /** A right count stays right: blocks appended later are not below it. */
  lemma SafeLater(t: Trace, m: nat, n: nat, v: Viewer, v': Viewer)
    requires IsRun(t) && m <= n < |t.worlds| && Safe(t, m, v) && v.count <= |t.worlds[m].ledger| && v'.count == v.count
    requires forall k :: k in v.processed ==> k in v'.processed && v.processed[k] <= v'.processed[k]
    ensures Safe(t, n, v')
  {
    LaterWorldExtends(t, m, n);
    forall a, k | 0 <= a < n && Promised(t, a, k) && |t.worlds[a].ledger| < v.count
      ensures Accounted(v', t.worlds[n].db, k, |t.worlds[a].ledger|)
    {
      if a >= m {
        LedgerOnlyGrows(t, m, a);
      }
    }
  }

  /** Steps other than counting keep a right count right. */
  lemma StepKeepsSafe(t: Trace, r: ViewRun, x: nat)
    requires IsRun(t) && IsViewRun(t, r) && x < |r.steps| && r.steps[x].at < |t.worlds|
    requires Safe(t, r.steps[x].at, r.viewers[x]) && !r.steps[x].act.CountBlocks?
    ensures Safe(t, r.steps[x].at, r.viewers[x + 1])
  {
    var n, v, v' := r.steps[x].at, r.viewers[x], r.viewers[x + 1];
    assert ViewMoves(t, v, r.steps[x], v');
    ViewRunInv(t, r, x, n);
    CountWithinLedger(t, r, x, n);
    if r.steps[x].act.LoadBlock? {
      LoadKeeps(t, n, v, r.steps[x], v');
    }
    SafeLater(t, n, n, v, v');
  }

  /** If the first m counts overlook nothing, the count told then is right, then and ever after. */
  lemma {:induction false} SoundCountsAreSafe(t: Trace, r: ViewRun, m: nat, n: nat)
    requires IsRun(t) && IsViewRun(t, r) && m < |r.viewers| && n < |t.worlds| && (m > 0 ==> r.steps[m - 1].at <= n)
    requires SoundCounts(t, r, m)
    ensures Safe(t, n, r.viewers[m])
    decreases m
  {
    if m > 0 {
      var step, v, v' := r.steps[m - 1], r.viewers[m - 1], r.viewers[m];
      assert ViewMoves(t, v, step, v');
      SoundCountsAreSafe(t, r, m - 1, step.at);
      if step.act.CountBlocks? {
        ViewRunInv(t, r, m - 1, step.at);
        assert SoundCount(t, r, m - 1);
        CountSafeIff(t, step.at, v, v');
      } else {
        StepKeepsSafe(t, r, m - 1);
      }
      CountWithinLedger(t, r, m, step.at);
      SafeLater(t, step.at, n, v', v');
    }
  }

  lemma SoundIsSafe(t: Trace, r: ViewRun, m: nat, x: nat)
    requires IsRun(t) && IsViewRun(t, r) && x < m <= |r.steps| && SoundCounts(t, r, m)
    ensures SafeAfter(t, r, x)
  {
    assert ViewMoves(t, r.viewers[x], r.steps[x], r.viewers[x + 1]);
    SoundCountsAreSafe(t, r, x + 1, r.steps[x].at);
  }

  /** The counts a view server tells are all right if and only if none of them overlooks a promised key:
      the exact condition, for every run of the protocol and of a view server beside it. */
  lemma {:induction false} CountsSafeIff(t: Trace, r: ViewRun, m: nat)
    requires IsRun(t) && IsViewRun(t, r) && m <= |r.steps|
    ensures (forall x :: 0 <= x < m ==> SafeAfter(t, r, x)) <==> SoundCounts(t, r, m)
  {
    if SoundCounts(t, r, m) {
      forall x | 0 <= x < m
        ensures SafeAfter(t, r, x)
      {
        SoundIsSafe(t, r, m, x);
      }
    }
    if m > 0 && forall x :: 0 <= x < m ==> SafeAfter(t, r, x) {
      CountsSafeIff(t, r, m - 1);
      SafeIsSound(t, r, m - 1);
    }
  }

  /** A right count after right counts overlooks nothing. */
  lemma SafeIsSound(t: Trace, r: ViewRun, x: nat)
    requires IsRun(t) && IsViewRun(t, r) && x < |r.steps| && SoundCounts(t, r, x) && SafeAfter(t, r, x)
    ensures r.steps[x].act.CountBlocks? ==> SoundCount(t, r, x)
  {
    if r.steps[x].act.CountBlocks? {
      var n := r.steps[x].at;
      assert ViewMoves(t, r.viewers[x], r.steps[x], r.viewers[x + 1]);
      ViewRunInv(t, r, x, n);
      SoundCountsAreSafe(t, r, x, n);
      CountSafeIff(t, n, r.viewers[x], r.viewers[x + 1]);
    }
  }

  /** A count that does not go past the ledger as it was when the records were read overlooks nothing, if no
      lost key is published again. Counting with current records never does. */
  lemma FreshIsSound(t: Trace, n: nat, v: Viewer, to: nat)
    requires IsRun(t) && n < |t.worlds| && ViewInv(t, n, v) && NoLostPublish(t, v.seen)
             && to <= |t.worlds[v.seen].ledger|
    ensures NothingOverlooked(t, n, v, to)
  {
    forall a, k | 0 <= a < n && Promised(t, a, k) && v.count <= |t.worlds[a].ledger| < to
                  && !Covered(v.records, k, |t.worlds[a].ledger|)
      ensures InMissedRange(t.worlds[n].db.events, |t.worlds[a].ledger|)
    {
      if v.seen <= a {
        LedgerOnlyGrows(t, v.seen, a);
      }
      PromiseAnswered(t, a, v.seen, k);
      LaterWorldExtends(t, v.seen, n);
      var i :| 0 <= i < |v.records| && v.records[i].key == k;
      assert !v.records[i].record.CoversBlockIndex(|t.worlds[a].ledger|);
      MissedStays(t.worlds[v.seen].db.events, t.worlds[n].db.events, |t.worlds[a].ledger|);
    }
  }
}
