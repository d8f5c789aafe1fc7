/**
 * A concrete run in which a user is told a block count that covers an output and does not find it. The request
 * reads the events before it reads the count. Here the events are read while no invocation has been announced;
 * the server then announces one, scans the block and stores it, the view server loads and counts it with
 * current records, and the count that goes out with those events is 1.
 */
module EarlyEvents {
  import opened Prelude
  import opened Coverage
  import opened FogView
  import opened RecoveryTables
  import opened IngestEnclave
  import opened ControllerState
  import opened IngestProtocol
  import opened ContiguityRuns
  import opened RngRuns
  import opened EventPaging
  import opened RngDiscovery
  import opened Promises
  import opened BlockTracker
  import opened ViewServer
  import opened ViewProgress
  import opened RunBuilder
  import opened StaleCount
  import opened EndToEnd

  function Txo(): TxOut {
    TxOut(Amount([], 0), seq(32, _ => 0), seq(32, _ => 0), Sealed(7, Some(5)))
  }

  function OneBlock(): Block {
    Block(1, [Txo()])
  }

  function Record(): ETxOutRecord {
    ETxOutRecord(Prf(SharedSecret(1, 5), 0), CryptoBox(5, Txo(), FogTxOutMetadata(0, 0, 0)))
  }

  const BEGUN := PUB7.(invocations := [Invocation(7, 1, 0, false)], events := [NewIngestInvocation(0)])

  function FilledDb(): Db {
    BEGUN.(blocks := [BlockRow(0, 7, 0, 1, 0, [Record()])])
  }

  /** Server 0 after it has drawn for the output. */
  function Drawing(pc: Pc): Server {
    Zero(Active, Some(0), pc).(enc := Enclave(7, 1, map[5 := 1]))
  }

  function AnyView(index: nat): ViewKey {
    index
  }

  function Wd(db: Db, s: Server): World {
    World([OneBlock()], db, [s, Off(1, "b")], {1})
  }

  /** The block that key 7 is promised for; here the events are read. */
  lemma Appended7() returns (t: Trace)
    ensures IsRun(t) && |t.steps| == 7 && Undisturbed(t) && t.steps[6] == LedgerGrows(OneBlock())
    ensures t.worlds[6].db == PUB7 && t.worlds[6].ledger == []
    ensures Last(t) == Wd(PUB7, Zero(Active, None, Ready))
  {
    t := Activated0();
    t := Grow(t, OneBlock());
    assert [] + [OneBlock()] == [OneBlock()];
  }

  lemma Announced() returns (t: Trace)
    ensures IsRun(t) && |t.steps| == 9 && Undisturbed(t) && t.steps[6] == LedgerGrows(OneBlock())
    ensures t.worlds[6].db == PUB7 && t.worlds[6].ledger == [] && t.worlds[7].db == PUB7
    ensures Last(t) == Wd(BEGUN, Zero(Active, Some(0), Scanning(0, [], 0, 0)))
  {
    t := Appended7();
    t := Next(t, 0, ABeginBlock(Acked), PUB7, Zero(Active, None, Reported), {1});
    assert Last(t).servers == [Zero(Active, None, Reported), Off(1, "b")];
    t := Next(t, 0, ATakeInvocation(Acked, 0), BEGUN, Zero(Active, Some(0), Scanning(0, [], 0, 0)), {1});
    assert Last(t).servers == [Zero(Active, Some(0), Scanning(0, [], 0, 0)), Off(1, "b")];
  }

  lemma Taken() returns (t: Trace)
    ensures IsRun(t) && |t.steps| == 10 && Undisturbed(t) && t.steps[6] == LedgerGrows(OneBlock())
    ensures t.worlds[6].db == PUB7 && t.worlds[6].ledger == [] && t.worlds[7].db == PUB7
    ensures Last(t) == Wd(BEGUN, Drawing(Scanning(0, [Record()], 1, 0)))
  {
    t := Announced();
    assert ChunkAt(OneBlock(), 0, 0, 0, 1) == Chunk(0, 0, 0, [Txo()]);
    assert [] + [Record()] == [Record()];
    t := Next(t, 0, AIngestChunk(Kept, AnyView), BEGUN, Drawing(Scanning(0, [Record()], 1, 0)), {1});
    assert Last(t).servers == [Drawing(Scanning(0, [Record()], 1, 0)), Off(1, "b")];
  }

  lemma Filled() returns (t: Trace)
    ensures IsRun(t) && |t.steps| == 11 && Undisturbed(t) && t.steps[6] == LedgerGrows(OneBlock())
    ensures t.worlds[6].db == PUB7 && t.worlds[6].ledger == [] && t.worlds[7].db == PUB7
    ensures Last(t) == Wd(FilledDb(), Drawing(Committed(0, true)))
  {
    t := Taken();
    t := Next(t, 0, AAddBlock(Acked), FilledDb(), Drawing(Committed(0, true)), {1});
    assert Last(t).servers == [Drawing(Committed(0, true)), Off(1, "b")];
  }

  /** The records as they are when the view server counts. */
  function NewRecords(): seq<TrackedKey> {
    [TrackedKey(7, KeyRecord(KeyStatus(0, 10, false, false), Some(0)))]
  }

  function FreshViewers(): seq<Viewer> {
    var read := NEW_VIEWER.(seen := 11, records := NewRecords());
    var fetched := read.(fetched := map[7 := 0], queue := [Fetched(7, 0)]);
    var loaded := fetched.(queue := [], processed := map[7 := 0]);
    [NEW_VIEWER, read, fetched, loaded, loaded.(count := 1)]
  }

  function FreshSteps(): seq<ViewStep> {
    [ViewStep(11, ReadKeys(NewRecords())), ViewStep(11, FetchBlock(0)), ViewStep(11, LoadBlock),
     ViewStep(11, CountBlocks)]
  }

  lemma CountsIt()
    ensures CountsTo(map[7 := 0], NewRecords(), 0, 1)
  {
    var processed: Progress := map[7 := 0];
    assert 7 in processed && 0 <= processed[7];
    assert !Known(processed, 1);
  }

  lemma FreshRunMoves(t: Trace)
    requires |t.worlds| == 12 && t.worlds[11].db == FilledDb()
    ensures IsViewRun(t, ViewRun(FreshViewers(), FreshSteps()))
  {
    var blocks := FilledDb().blocks;
    assert blocks[..0] == [] && LastScanned(blocks[..0], 7) == None;
    assert LastScanned(blocks, 7) == Some(0);
    assert NewRecords()[0].key == 7;
    assert IsRecordsOf(FilledDb(), NewRecords());
    assert blocks[0].key == 7 && blocks[0].block == 0;
    CountsIt();
  }

  lemma FreshRunIsSound(t: Trace, r: ViewRun)
    requires IsRun(t) && |t.worlds| == 12 && r == ViewRun(FreshViewers(), FreshSteps()) && IsViewRun(t, r)
    requires NoLostPublish(t, 11) && |t.worlds[11].ledger| == 1
    ensures SoundCounts(t, r, 4)
  {
    ViewRunInv(t, r, 3, 11);
    FreshIsSound(t, 11, r.viewers[3], 1);
  }

  /** All the conditions of the block count's promise hold, the output of block 0 is stored under egress key 1
      and block 0 is below the count, but the events read in world 7 tell of no rng: the user finds nothing. */
  lemma EventsReadTooEarly() returns (t: Trace, r: ViewRun)
    ensures IsRun(t) && |t.steps| == 11 && NoFailures(t, 11) && NoLostPublish(t, 11)
    ensures IsViewRun(t, r) && |r.steps| == 4 && SoundCounts(t, r, 4) && r.viewers[4].count == 1
    ensures Owed(t, 11, 6, 7, 0, 5) && |t.worlds[6].ledger| < r.viewers[4].count
    ensures t.worlds[11].db.blocks == [BlockRow(0, 7, 0, 1, 0, [Record()])]
    ensures PollTimes(t, [7]) && EgressIn(Received(t, [7])) == {}
    ensures !FoundAt(5, [], [], Record())
  {
    t := Filled();
    r := ViewRun(FreshViewers(), FreshSteps());
    forall m | 0 <= m < |t.steps|
      ensures !RaisesLostKey(t.worlds[m].db, StepOp(t.worlds[m], t.steps[m]))
    {
      NothingLost(t, m);
    }
    FreshRunMoves(t);
    FreshRunIsSound(t, r);
  }
}
