/**
 * From the ledger to the wallet: the ingest protocol, the view server's loading and counting, the event
 * table, the client's polling loop and the compressed record form together give every user every output
 * addressed to them below the block count they are told, if and only if they were told about its rng.
 */
module EndToEnd {
  import opened Prelude
  import opened FogView
  import opened RecoveryTables
  import opened IngestEnclave
  import opened IngestProtocol
  import opened ContiguityRuns
  import opened Promises
  import opened RngStreams
  import opened RngRuns
  import opened DrawOrder
  import opened EgressOwners
  import opened LedgerRecords
  import opened SqlRecoveryDb
  import opened TxOutLookup
  import opened EventPaging
  import opened RngDiscovery
  import opened ProtocolTheorems
  import opened BlockTracker
  import opened ViewServer
  import opened ViewProgress
  import opened ViewLoading
  import opened ClientPolling

  ghost predicate ShortStreams(blocks: seq<BlockRow>) {
    forall secret: Secret :: |Published(blocks, secret)| < TWO64
  }

  lemma {:induction false} KeysOfOrigin(rows: seq<ETxOutRecord>, secret: Secret, q: nat) returns (j: nat)
    requires q < |KeysOf(rows, secret)|
    ensures j < |rows| && rows[j].searchKey == KeysOf(rows, secret)[q]
  {
    var front := rows[..|rows| - 1];
    if q < |KeysOf(front, secret)| {
      j := KeysOfOrigin(front, secret, q);
    } else {
      j := |rows| - 1;
    }
  }

  lemma {:induction false} PublishedOrigin(blocks: seq<BlockRow>, secret: Secret, q: nat) returns (r: nat, j: nat)
    requires q < |Published(blocks, secret)|
    ensures At(blocks, r, j) && blocks[r].records[j].searchKey == Published(blocks, secret)[q]
  {
    var front := blocks[..|blocks| - 1];
    if q < |Published(front, secret)| {
      r, j := PublishedOrigin(front, secret, q);
    } else {
      r := |blocks| - 1;
      j := KeysOfOrigin(blocks[r].records, secret, q - |Published(front, secret)|);
    }
  }

  lemma StoredIsHeld(db: Db, server: Store, secret: Secret, c: nat)
    requires GapFree(db) && ShortStreams(db.blocks) && PayloadsOf(server, db.blocks, 0)
    requires c < |Published(db.blocks, secret)|
    ensures Prf(secret, c) in server
  {
    var stored := Published(db.blocks, secret);
    assert Gapless(stored, secret);
    OutputsAt(secret, |stored|, c);
    var r, j := PublishedOrigin(db.blocks, secret, c);
    LookupSound(db.blocks, 0, Prf(secret, c));
    assert TxOutLookup.Holds(db.blocks, 0, Prf(secret, c), db.blocks[r].records[j].payload);
  }

  lemma HeldIsStored(db: Db, server: Store, secret: Secret, c: nat)
    requires GapFree(db) && ShortStreams(db.blocks) && PayloadsOf(server, db.blocks, 0) && Prf(secret, c) in server
    ensures c < |Published(db.blocks, secret)|
  {
    var stored := Published(db.blocks, secret);
    assert Gapless(stored, secret);
    LookupSound(db.blocks, 0, Prf(secret, c));
    var r, j :| At(db.blocks, r, j) && db.blocks[r].block >= 0
                && db.blocks[r].records[j] == ETxOutRecord(Prf(secret, c), server[Prf(secret, c)]);
    PublishedMember(db.blocks, r, j);
    var q :| 0 <= q < |stored| && stored[q] == Prf(secret, c);
    OutputsAt(secret, |stored|, q);
  }

  /** A view server that has loaded the whole database holds, of every rng, a prefix without gaps. */
  lemma LoadedServerHoldsPrefixes(db: Db, server: Store, secret: Secret)
    requires GapFree(db) && ShortStreams(db.blocks) && PayloadsOf(server, db.blocks, 0)
    ensures HoldsPrefix(server, secret, |Published(db.blocks, secret)|)
  {
    forall c: nat
      ensures Prf(secret, c) in server <==> c < |Published(db.blocks, secret)|
    {
      if c < |Published(db.blocks, secret)| {
        StoredIsHeld(db, server, secret, c);
      }
      if Prf(secret, c) in server {
        HeldIsStored(db, server, secret, c);
      }
    }
  }

  // ---- view servers ------------------------------------------------------------------------------------------------

  lemma {:induction false} LoadedFrom(processed: Progress, blocks: seq<BlockRow>, r': nat) returns (r: nat)
    requires r' < |LoadedRows(processed, blocks)|
    ensures r < |blocks| && RowLoaded(processed, blocks[r]) && blocks[r] == LoadedRows(processed, blocks)[r']
  {
    var front := blocks[..|blocks| - 1];
    if r' < |LoadedRows(processed, front)| {
      r := LoadedFrom(processed, front, r');
    } else {
      r := |blocks| - 1;
    }
  }

  ghost predicate Ahead(a: Progress, b: Progress) {
    forall k :: k in a ==> k in b && a[k] <= b[k]
  }

  /** Whatever part of whatever database a view server has loaded, it answers as the database of any later world. */
  lemma LoadedWithin(t: Trace, m: nat, n: nat, processed: Progress, server: Store, final: Store)
    requires IsRun(t) && m <= n < |t.worlds| && GapFree(t.worlds[n].db) && ShortStreams(t.worlds[n].db.blocks)
    requires PayloadsOf(server, LoadedDb(t.worlds[m].db, processed).blocks, 0)
    requires PayloadsOf(final, t.worlds[n].db.blocks, 0)
    ensures Within(server, final)
  {
    var rows, rows' := LoadedDb(t.worlds[m].db, processed).blocks, t.worlds[n].db.blocks;
    LaterWorldExtends(t, m, n);
    GapFreeDistinct(t.worlds[n].db);
    forall key | key in server
      ensures key in final && final[key] == server[key]
    {
      LookupSound(rows, 0, key);
      var r, j :| At(rows, r, j) && rows[r].block >= 0 && rows[r].records[j] == ETxOutRecord(key, server[key]);
      var x := LoadedFrom(processed, t.worlds[m].db.blocks, r);
      assert rows'[x] == t.worlds[m].db.blocks[x];
      assert At(rows', x, j) && rows'[x].records[j] == ETxOutRecord(key, server[key]);
      LookupExact(rows', 0, key, server[key]);
    }
  }

  lemma StepMovesAhead(t: Trace, r: ViewRun, m: nat)
    requires IsRun(t) && IsViewRun(t, r) && m < |r.steps|
    ensures Ahead(r.viewers[m].processed, r.viewers[m + 1].processed)
  {
    var step, v, v' := r.steps[m], r.viewers[m], r.viewers[m + 1];
    assert ViewMoves(t, v, step, v');
    if step.act.LoadBlock? {
      LoadsAreConsecutive(t, r, m);
    }
  }

  /** A view server never unloads a block. */
  lemma {:induction false} LoadsOnly(t: Trace, r: ViewRun, m: nat, n: nat)
    requires IsRun(t) && IsViewRun(t, r) && m <= n < |r.viewers|
    ensures Ahead(r.viewers[m].processed, r.viewers[n].processed)
    decreases n
  {
    if m < n {
      LoadsOnly(t, r, m, n - 1);
      StepMovesAhead(t, r, n - 1);
    }
  }

  /** What is loaded is no longer than what is stored later. */
  lemma LoadedIsShort(t: Trace, m: nat, n: nat, processed: Progress)
    requires IsRun(t) && m <= n < |t.worlds| && ShortStreams(t.worlds[n].db.blocks)
    ensures ShortStreams(LoadedDb(t.worlds[m].db, processed).blocks)
  {
    var db := t.worlds[m].db;
    RunInv(t, m);
    RunOwners(t, m);
    ContiguousAscend(db);
    LaterWorldExtends(t, m, n);
    forall secret: Secret
      ensures |Published(LoadedRows(processed, db.blocks), secret)| < TWO64
    {
      LoadedIsPrefix(processed, db.blocks, secret);
      PublishedGrows(db.blocks, t.worlds[n].db.blocks, secret);
    }
  }

  // ---- requests ---------------------------------------------------------------------------------------------------

  /** One request, answered by the view server with this run: the count is the one after step `counted`, the
      contents are looked up later, after step `step`, in this world of the protocol. */
  datatype Request = Request(run: ViewRun, counted: nat, step: nat, world: nat, answer: Answer)

  ghost predicate Located(t: Trace, n: nat, q: Request) {
    && q.world <= n < |t.worlds| && IsViewRun(t, q.run)
    && q.counted <= q.step < |q.run.viewers| && (q.step > 0 ==> q.run.steps[q.step - 1].at <= q.world)
  }

  /** What the view server has loaded when it answers. */
  function Contents(t: Trace, q: Request): Db
    requires q.world < |t.worlds| && q.step < |q.run.viewers|
  {
    LoadedDb(t.worlds[q.world].db, q.run.viewers[q.step].processed)
  }

  ghost predicate Answered(t: Trace, n: nat, q: Request) {
    && Located(t, n, q) && q.answer.count == q.run.viewers[q.counted].count
    && PayloadsOf(q.answer.server, Contents(t, q).blocks, 0)
  }

  /** The counts of the view server so far overlook nothing. */
  ghost predicate Sound(t: Trace, n: nat, q: Request)
    requires IsRun(t) && Located(t, n, q)
  {
    SoundCounts(t, q.run, q.counted)
  }

  function TotalsOf(db: Db, view: ViewKey, egress: seq<EgressKey>): seq<nat> {
    seq(|egress|, k requires 0 <= k < |egress| => |Published(db.blocks, SharedSecret(egress[k], view))|)
  }

  /** What an answering view server holds are prefixes of all rngs, and the later database agrees with it. */
  lemma AnswerIsPrefix(t: Trace, n: nat, q: Request, view: ViewKey, egress: seq<EgressKey>, final: Store)
    requires IsRun(t) && Answered(t, n, q) && GapFree(t.worlds[n].db) && ShortStreams(t.worlds[n].db.blocks)
    requires PayloadsOf(final, t.worlds[n].db.blocks, 0)
    ensures RngsOk(q.answer.server, view, egress, TotalsOf(Contents(t, q), view, egress))
    ensures Within(q.answer.server, final)
  {
    var db, processed := Contents(t, q), q.run.viewers[q.step].processed;
    GapsStay(t, q.world, n);
    LoadedGapFree(t, q.world, processed);
    LoadedIsShort(t, q.world, n, processed);
    forall k | 0 <= k < |egress|
      ensures HoldsPrefix(q.answer.server, SharedSecret(egress[k], view),
                          |Published(db.blocks, SharedSecret(egress[k], view))|)
    {
      LoadedServerHoldsPrefixes(db, q.answer.server, SharedSecret(egress[k], view));
    }
    LoadedWithin(t, q.world, n, processed, q.answer.server, final);
  }

  ghost predicate AllAnswered(t: Trace, n: nat, requests: seq<Option<Request>>) {
    forall i :: 0 <= i < |requests| && requests[i].Some? ==> Answered(t, n, requests[i].value)
  }

  function AnswersOf(requests: seq<Option<Request>>): (answers: seq<Option<Answer>>)
    ensures |answers| == |requests|
    ensures forall i :: 0 <= i < |requests| ==>
              answers[i] == if requests[i].Some? then Some(requests[i].value.answer) else None
  {
    seq(|requests|, i requires 0 <= i < |requests| =>
      if requests[i].Some? then Some(requests[i].value.answer) else None)
  }

  /** What the servers held of every rng at each request. */
  ghost function HeldBy(t: Trace, n: nat, requests: seq<Option<Request>>, view: ViewKey, egress: seq<EgressKey>)
    : (totals: seq<seq<nat>>)
    requires AllAnswered(t, n, requests)
    ensures |totals| == |requests| && forall i :: 0 <= i < |totals| ==> |totals[i]| == |egress|
    ensures forall i :: 0 <= i < |requests| && requests[i].Some? ==>
              totals[i] == TotalsOf(Contents(t, requests[i].value), view, egress)
  {
    seq(|requests|, i requires 0 <= i < |requests| =>
      if requests[i].Some? then TotalsOf(Contents(t, requests[i].value), view, egress) else seq(|egress|, _ => 0))
  }

  /** The precondition of the polling loop is what the protocol and the view servers guarantee, whichever of them
      answer and however far each has got. */
  lemma ServersArePollable(t: Trace, n: nat, requests: seq<Option<Request>>, view: ViewKey, egress: seq<EgressKey>,
                           final: Store)
    requires IsRun(t) && n < |t.worlds| && GapFree(t.worlds[n].db) && ShortStreams(t.worlds[n].db.blocks)
    requires AllAnswered(t, n, requests) && PayloadsOf(final, t.worlds[n].db.blocks, 0)
    ensures Consistent(AnswersOf(requests), view, egress, HeldBy(t, n, requests, view, egress), final)
  {
    var answers, totals := AnswersOf(requests), HeldBy(t, n, requests, view, egress);
    forall i | 0 <= i < |answers| && answers[i].Some?
      ensures RngsOk(answers[i].value.server, view, egress, totals[i]) && Within(answers[i].value.server, final)
    {
      AnswerIsPrefix(t, n, requests[i].value, view, egress, final);
    }
  }

  // ---- what the user finds ----------------------------------------------------------------------------------------

  /** The payload is among the findings, at the place of its search key. */
  ghost predicate FoundAt(view: ViewKey, egress: seq<EgressKey>, found: seq<seq<Payload>>, record: ETxOutRecord)
    requires |found| == |egress|
  {
    exists k, i :: 0 <= k < |found| && 0 <= i < |found[k]| && found[k][i] == record.payload
                   && record.searchKey == Output(SharedSecret(egress[k], view), i)
  }

  /** What the owner decrypts names the block and the position of the output in the whole ledger. */
  ghost predicate SaysWhere(r: TxOutRecord, b: Block, block: nat, p: nat) {
    r.blockIndex == block && r.globalIndex + |b.outputs| == b.cumulativeTxoCount + p
  }

  /** The record of output p of a stored block for its owner, under egress key e, an announced one unless an
      ingest failed. */
  ghost predicate RecordOfOutput(t: Trace, n: nat, block: nat, p: nat, view: ViewKey, crypto: Crypto,
                                 record: ETxOutRecord, e: EgressKey)
    requires n < |t.worlds| && block < |t.worlds[n].ledger| && p < |t.worlds[n].ledger[block].outputs|
  {
    var txo := t.worlds[n].ledger[block].outputs[p];
    && record.searchKey.secret == SharedSecret(e, view)
    && (NoFailures(t, n) ==> e in EgressKeys(t.worlds[n].db.invocations))
    && record.payload.view == view && record.payload.txo == txo
    && SaysWhere(NewTxOutRecord(ToFogTxOut(crypto, txo), record.payload.meta), t.worlds[n].ledger[block], block, p)
    && (BuiltFor(crypto, txo, view) ==>
          Recovered(crypto, record.payload.txo, record.payload.meta, view) == Ok(txo.(hint := Zeroed)))
  }

  /** The block is loaded for the key by the server that answers. */
  ghost predicate LoadedAt(t: Trace, q: Request, key: IngressKey, block: nat)
    requires q.world < |t.worlds| && q.step < |q.run.viewers|
  {
    var processed := q.run.viewers[q.step].processed;
    HasRow(t.worlds[q.world].db.blocks, key, block) && key in processed && block <= processed[key]
  }

  /** One of these requests was answered by a server that holds no more than m outputs of this rng. */
  ghost predicate Emptied(t: Trace, n: nat, requests: seq<Request>, secret: Secret, m: nat) {
    exists i :: 0 <= i < |requests| && Located(t, n, requests[i])
                && |Published(Contents(t, requests[i]).blocks, secret)| <= m
  }

  /** The result of searching these rngs, all told: of each of them its outputs from the first on, and all those
      that one of the servers asked held. */
  ghost predicate Searched(t: Trace, n: nat, requests: seq<Request>, final: Store, view: ViewKey,
                           egress: seq<EgressKey>, found: seq<seq<Payload>>)
  {
    && |found| == |egress|
    && forall k :: 0 <= k < |egress| ==>
         var secret := SharedSecret(egress[k], view);
         Recovers(final, secret, 0, |found[k]|, found[k]) && Emptied(t, n, requests, secret, |found[k]|)
  }

  /** A block has one row for a key, at all times the same. */
  lemma SameRow(t: Trace, m: nat, n: nat, key: IngressKey, block: nat, r: nat)
    requires IsRun(t) && m <= n < |t.worlds| && HasRow(t.worlds[m].db.blocks, key, block)
    requires r < |t.worlds[n].db.blocks| && t.worlds[n].db.blocks[r].key == key
             && t.worlds[n].db.blocks[r].block == block
    ensures r < |t.worlds[m].db.blocks| && t.worlds[m].db.blocks[r] == t.worlds[n].db.blocks[r]
  {
    var rows, rows' := t.worlds[m].db.blocks, t.worlds[n].db.blocks;
    LaterWorldExtends(t, m, n);
    RunInv(t, n);
    ContiguousAscend(t.worlds[n].db);
    var x :| 0 <= x < |rows| && rows[x].key == key && rows[x].block == block;
    assert rows'[x] == rows[x];
  }

  /** A record of a loaded row is within what the server holds of its rng. */
  lemma LoadedReaches(t: Trace, n: nat, q: Request, r: nat, j: nat, secret: Secret) returns (c: nat)
    requires IsRun(t) && Located(t, n, q) && GapFree(t.worlds[n].db) && At(t.worlds[n].db.blocks, r, j)
    requires LoadedAt(t, q, t.worlds[n].db.blocks[r].key, t.worlds[n].db.blocks[r].block)
    requires t.worlds[n].db.blocks[r].records[j].searchKey.secret == secret
    ensures c < |Published(Contents(t, q).blocks, secret)|
    ensures t.worlds[n].db.blocks[r].records[j].searchKey == Output(secret, c)
  {
    var processed, row := q.run.viewers[q.step].processed, t.worlds[n].db.blocks[r];
    SameRow(t, q.world, n, row.key, row.block, r);
    var r' := LoadedMember(processed, t.worlds[q.world].db.blocks, r);
    PublishedMember(Contents(t, q).blocks, r', j);
    GapsStay(t, q.world, n);
    LoadedGapFree(t, q.world, processed);
    var stored := Published(Contents(t, q).blocks, secret);
    assert Gapless(stored, secret);
    c :| 0 <= c < |stored| && stored[c] == row.records[j].searchKey;
    OutputsAt(secret, |stored|, c);
  }

  lemma StoreHolds(db: Db, final: Store, r: nat, j: nat)
    requires GapFree(db) && ShortStreams(db.blocks) && PayloadsOf(final, db.blocks, 0) && At(db.blocks, r, j)
    ensures var record := db.blocks[r].records[j];
            record.searchKey in final && final[record.searchKey] == record.payload
  {
    var record := db.blocks[r].records[j];
    GapFreeDistinct(db);
    assert record == ETxOutRecord(record.searchKey, record.payload);
    LookupExact(db.blocks, 0, record.searchKey, record.payload);
  }

  /** A record whose row every server asked has loaded is found if and only if its rng was searched. */
  lemma LoadedFoundIff(t: Trace, n: nat, requests: seq<Request>, r: nat, j: nat, e: EgressKey, view: ViewKey,
                       final: Store, egress: seq<EgressKey>, found: seq<seq<Payload>>)
    requires IsRun(t) && n < |t.worlds| && GapFree(t.worlds[n].db) && ShortStreams(t.worlds[n].db.blocks)
    requires PayloadsOf(final, t.worlds[n].db.blocks, 0) && Searched(t, n, requests, final, view, egress, found)
    requires At(t.worlds[n].db.blocks, r, j)
    requires t.worlds[n].db.blocks[r].records[j].searchKey.secret == SharedSecret(e, view)
    requires forall i :: 0 <= i < |requests| && Located(t, n, requests[i]) ==>
               LoadedAt(t, requests[i], t.worlds[n].db.blocks[r].key, t.worlds[n].db.blocks[r].block)
    ensures FoundAt(view, egress, found, t.worlds[n].db.blocks[r].records[j]) <==> e in egress
  {
    var record, secret, db := t.worlds[n].db.blocks[r].records[j], SharedSecret(e, view), t.worlds[n].db;
    if e in egress {
      var k :| 0 <= k < |egress| && egress[k] == e;
      assert Emptied(t, n, requests, secret, |found[k]|);
      var i :| 0 <= i < |requests| && Located(t, n, requests[i])
               && |Published(Contents(t, requests[i]).blocks, secret)| <= |found[k]|;
      var c := LoadedReaches(t, n, requests[i], r, j, secret);
      StoreHolds(db, final, r, j);
      assert Recovers(final, secret, 0, |found[k]|, found[k]);
      assert found[k][c] == record.payload;
    }
  }

  /** A user has searched some rngs on view servers that had all loaded a block for a key. An output of it whose
      hint was encrypted to them has a record there, which they find if and only if its rng is among those they
      searched. Decompressing it gives back the ledger's output with its hint zeroed whenever it was built for
      their key. */
  lemma LoadedOutputFoundIff(t: Trace, n: nat, requests: seq<Request>, key: IngressKey, block: nat, p: nat,
                             view: ViewKey, final: Store, egress: seq<EgressKey>, found: seq<seq<Payload>>,
                             crypto: Crypto)
    returns (r: nat, j: nat, e: EgressKey)
    requires IsRun(t) && n < |t.worlds| && GapFree(t.worlds[n].db) && ShortStreams(t.worlds[n].db.blocks)
    requires HasRow(t.worlds[n].db.blocks, key, block)
    requires block < |t.worlds[n].ledger| && p < |t.worlds[n].ledger[block].outputs|
    requires t.worlds[n].ledger[block].outputs[p].hint == Sealed(key, Some(view))
    requires PayloadsOf(final, t.worlds[n].db.blocks, 0) && Searched(t, n, requests, final, view, egress, found)
    requires forall i :: 0 <= i < |requests| && Located(t, n, requests[i]) ==> LoadedAt(t, requests[i], key, block)
    ensures At(t.worlds[n].db.blocks, r, j) && t.worlds[n].db.blocks[r].key == key
            && t.worlds[n].db.blocks[r].block == block
    ensures RecordOfOutput(t, n, block, p, view, crypto, t.worlds[n].db.blocks[r].records[j], e)
    ensures FoundAt(view, egress, found, t.worlds[n].db.blocks[r].records[j]) <==> e in egress
  {
    var q;
    r, j, e, q := EveryOutputReachesItsOwner(t, n, key, block, p, view);
    LoadedFoundIff(t, n, requests, r, j, e, view, final, egress, found);
    var payload := t.worlds[n].db.blocks[r].records[j].payload;
    RecoveryRoundTrip(crypto, payload.txo, payload.meta, view);
  }

  // ---- what the block count means -----------------------------------------------------------------------------------

  /** A block was appended at step a while a report promised `key` for it, and is not reported missed in world n;
      output p of it has a hint for `view`. */
  ghost predicate Owed(t: Trace, n: nat, a: nat, key: IngressKey, p: nat, view: ViewKey)
    requires IsRun(t)
  {
    && a < n < |t.worlds|
    && var block := |t.worlds[a].ledger|;
    && Promised(t, a, key) && !InMissedRange(t.worlds[n].db.events, block)
    && block < |t.worlds[n].ledger| && p < |t.worlds[n].ledger[block].outputs|
    && t.worlds[n].ledger[block].outputs[p].hint == Sealed(key, Some(view))
  }

  /** A request told a count above this block, and the counts of the server that told it overlook nothing. */
  ghost predicate CountsBlock(t: Trace, n: nat, q: Request, block: nat)
    requires IsRun(t)
  {
    Located(t, n, q) && Sound(t, n, q) && block < q.run.viewers[q.counted].count
  }

  lemma CountedBefore(t: Trace, n: nat, q: Request)
    requires Located(t, n, q)
    ensures q.counted > 0 ==> q.run.steps[q.counted - 1].at <= q.world
  {
    if 0 < q.counted < q.step {
      assert q.run.steps[q.counted - 1].at <= q.run.steps[q.step - 1].at;
    }
  }

  /** Below such a count every promised block that is not missed is loaded. */
  lemma CountedIsLoaded(t: Trace, n: nat, q: Request, a: nat, key: IngressKey)
    requires IsRun(t) && a < n < |t.worlds| && CountsBlock(t, n, q, |t.worlds[a].ledger|) && Promised(t, a, key)
    requires !InMissedRange(t.worlds[n].db.events, |t.worlds[a].ledger|)
    ensures LoadedAt(t, q, key, |t.worlds[a].ledger|)
  {
    var block, v, db := |t.worlds[a].ledger|, q.run.viewers[q.counted], t.worlds[q.world].db;
    CountedBefore(t, n, q);
    CountWithinLedger(t, q.run, q.counted, q.world);
    if q.world <= a {
      LedgerOnlyGrows(t, q.world, a);
    }
    SoundCountsAreSafe(t, q.run, q.counted, q.world);
    assert Accounted(v, db, key, block);
    LaterWorldExtends(t, q.world, n);
    if InMissedRange(db.events, block) {
      MissedStays(db.events, t.worlds[n].db.events, block);
    }
    ViewRunInv(t, q.run, q.counted, q.world);
    FetchedIsStored(t, q.world, v.fetched, key, block);
    LoadsOnly(t, q.run, q.counted, q.step);
  }

  lemma StoredLater(t: Trace, m: nat, n: nat, key: IngressKey, block: nat)
    requires IsRun(t) && m <= n < |t.worlds| && HasRow(t.worlds[m].db.blocks, key, block)
    ensures HasRow(t.worlds[n].db.blocks, key, block)
  {
    LaterWorldExtends(t, m, n);
    var i :| 0 <= i < |t.worlds[m].db.blocks| && t.worlds[m].db.blocks[i].key == key
      && t.worlds[m].db.blocks[i].block == block;
    assert t.worlds[n].db.blocks[i] == t.worlds[m].db.blocks[i];
  }

  /** The promise of the block count. View servers whose counts overlook nothing were asked, each of them told a
      count above a block that is owed, and the search went on until each rng met a server that held no more of
      it. Then the output has a record, which its owner finds if and only if they were told about its rng. */
  lemma UserRecoversBelowCount(t: Trace, n: nat, requests: seq<Request>, a: nat, key: IngressKey, p: nat, view: ViewKey,
                               final: Store, egress: seq<EgressKey>, found: seq<seq<Payload>>, crypto: Crypto)
    returns (r: nat, j: nat, e: EgressKey)
    requires IsRun(t) && Owed(t, n, a, key, p, view) && GapFree(t.worlds[n].db) && ShortStreams(t.worlds[n].db.blocks)
    requires |requests| > 0 && forall i :: 0 <= i < |requests| ==> CountsBlock(t, n, requests[i], |t.worlds[a].ledger|)
    requires PayloadsOf(final, t.worlds[n].db.blocks, 0) && Searched(t, n, requests, final, view, egress, found)
    ensures At(t.worlds[n].db.blocks, r, j)
    ensures t.worlds[n].db.blocks[r].key == key && t.worlds[n].db.blocks[r].block == |t.worlds[a].ledger|
    ensures RecordOfOutput(t, n, |t.worlds[a].ledger|, p, view, crypto, t.worlds[n].db.blocks[r].records[j], e)
    ensures FoundAt(view, egress, found, t.worlds[n].db.blocks[r].records[j]) <==> e in egress
  {
    var block := |t.worlds[a].ledger|;
    forall i | 0 <= i < |requests|
      ensures LoadedAt(t, requests[i], key, block)
    {
      CountedIsLoaded(t, n, requests[i], a, key);
    }
    StoredLater(t, requests[0].world, n, key, block);
    r, j, e := LoadedOutputFoundIff(t, n, requests, key, block, p, view, final, egress, found, crypto);
  }

  // ---- which rngs the user was told about -------------------------------------------------------------------------

  /** If event ids follow commit order, a user whose last look at the events came after the row was stored
      has been told; so has one whose last look came no earlier than the count was computed. */
  lemma ToldOnceStored(t: Trace, n: nat, times: seq<nat>, r: nat, j: nat, e: EgressKey, view: ViewKey)
    requires IsRun(t) && n < |t.worlds| && NoFailures(t, n) && PollTimes(t, times) && |times| > 0
    requires At(t.worlds[n].db.blocks, r, j)
             && t.worlds[n].db.blocks[r].records[j].searchKey.secret == SharedSecret(e, view)
    requires n <= times[|times| - 1] || r < |t.worlds[times[|times| - 1]].db.blocks|
    ensures e in EgressIn(Received(t, times))
  {
    var x := times[|times| - 1];
    EveryRngIsDiscovered(t, times);
    if n <= x {
      LaterWorldExtends(t, n, x);
      PublishedMember(t.worlds[n].db.blocks, r, j);
      NoRngGaps(t, n, e, view);
    } else {
      LaterWorldExtends(t, x, n);
      assert t.worlds[n].db.blocks[r] == t.worlds[x].db.blocks[r];
      PublishedMember(t.worlds[x].db.blocks, r, j);
      NoRngGaps(t, x, e, view);
    }
  }

  /** If event ids follow commit order and one of the counts was computed no later than the last events were read,
      every output below the counts is found. */
  lemma EventsReadLastFindAll(t: Trace, n: nat, times: seq<nat>, requests: seq<Request>, x: nat, a: nat,
                              key: IngressKey, p: nat, view: ViewKey, final: Store, egress: seq<EgressKey>,
                              found: seq<seq<Payload>>, crypto: Crypto)
    returns (r: nat, j: nat, e: EgressKey)
    requires IsRun(t) && Owed(t, n, a, key, p, view) && NoFailures(t, n) && ShortStreams(t.worlds[n].db.blocks)
    requires forall i :: 0 <= i < |requests| ==> CountsBlock(t, n, requests[i], |t.worlds[a].ledger|)
    requires PayloadsOf(final, t.worlds[n].db.blocks, 0) && Searched(t, n, requests, final, view, egress, found)
    requires PollTimes(t, times) && |times| > 0 && x < |requests| && requests[x].world <= times[|times| - 1]
    requires forall e :: e in EgressIn(Received(t, times)) ==> e in egress
    ensures At(t.worlds[n].db.blocks, r, j)
    ensures RecordOfOutput(t, n, |t.worlds[a].ledger|, p, view, crypto, t.worlds[n].db.blocks[r].records[j], e)
    ensures FoundAt(view, egress, found, t.worlds[n].db.blocks[r].records[j])
  {
    RunRngInv(t, n);
    r, j, e := UserRecoversBelowCount(t, n, requests, a, key, p, view, final, egress, found, crypto);
    CountedIsLoaded(t, n, requests[x], a, key);
    SameRow(t, requests[x].world, n, key, |t.worlds[a].ledger|, r);
    LaterWorldExtends(t, requests[x].world, times[|times| - 1]);
    ToldOnceStored(t, n, times, r, j, e, view);
  }
}
