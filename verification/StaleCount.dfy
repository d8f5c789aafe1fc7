/**
 * A concrete run in which the view server counts with stale key records. Server 0 activates with ingress key 7
 * and the view server reads the key records; then server 1 activates with key 8 and publishes it, a block
 * follows, and server 0 stores it. The view server loads that block for key 7 and counts it as complete,
 * although key 8 was promised for it and has provided nothing.
 */
module StaleCount {
  import opened Prelude
  import opened Coverage
  import opened RecoveryTables
  import opened IngestEnclave
  import opened ControllerState
  import opened IngestProtocol
  import opened ContiguityRuns
  import opened RngStreams
  import opened Promises
  import opened BlockTracker
  import opened ViewServer
  import opened ViewProgress
  import opened RunBuilder

  function Cfg(id: ServerId, report: ReportId): Config {
    Config({id}, 10, 1, report, false)
  }

  function Off(id: ServerId, report: ReportId): Server {
    Server(Cfg(id, report), Down, InitialState(Cfg(id, report)), Enclave(0, 0, map[]), Ready, None, {})
  }

  function Zero(mode: IngestMode, iid: Option<InvocationId>, pc: Pc): Server {
    Server(Cfg(0, "a"), Up, StateValue(mode, 0, 10, iid, {0}), Enclave(7, 1, map[]), pc, None, {1})
  }

  function One(mode: IngestMode, pc: Pc): Server {
    Server(Cfg(1, "b"), Up, StateValue(mode, 0, 10, None, {1}), Enclave(8, 2, map[]), pc, None, {2})
  }

  const KEY7 := Db(map[7 := KeyStatus(0, 0, false, false)], [], [], [], map[])
  const PUB7 := Db(map[7 := KeyStatus(0, 10, false, false)], [], [], [], map["a" := Report(7, None, 10)])
  const KEY8 := PUB7.(keys := PUB7.keys[8 := KeyStatus(0, 0, false, false)])
  const PUB8 :=
    PUB7.(keys := PUB7.keys[8 := KeyStatus(0, 10, false, false)], reports := PUB7.reports["b" := Report(8, None, 10)])
  const TOOK := PUB8.(invocations := [Invocation(7, 1, 0, false)], events := [NewIngestInvocation(0)])
  const DONE := TOOK.(blocks := [BlockRow(0, 7, 0, 0, 0, [])])

  const EMPTY_BLOCK := Block(0, [])

  /** Nobody reports a key lost or retires one, and no ingest fails. */
  ghost predicate Undisturbed(t: Trace) {
    forall m :: 0 <= m < |t.steps| ==> !t.steps[m].Operator? && NoIngestFailure(t.steps[m])
  }

  lemma Booted0() returns (t: Trace)
    ensures IsRun(t) && |t.steps| == 1 && Undisturbed(t)
    ensures Last(t) == World([], EMPTY_DB, [Zero(Idle, None, Ready), Off(1, "b")], {1})
  {
    t := Trace([World([], EMPTY_DB, [Off(0, "a"), Off(1, "b")], {})], []);
    t := Next(t, 0, AStartUp(7, 1), EMPTY_DB, Zero(Idle, None, Ready), {1});
    assert Last(t).servers == [Zero(Idle, None, Ready), Off(1, "b")];
  }

  lemma Started0() returns (t: Trace)
    ensures IsRun(t) && |t.steps| == 3 && Undisturbed(t)
    ensures Last(t) == World([], EMPTY_DB, [Zero(Idle, None, Activating({}, KeyUnknown)), Off(1, "b")], {1})
  {
    t := Booted0();
    t := Next(t, 0, AActivate, EMPTY_DB, Zero(Idle, None, Activating({}, CheckingPeers)), {1});
    assert Last(t).servers == [Zero(Idle, None, Activating({}, CheckingPeers)), Off(1, "b")];
    t := Next(t, 0, AReadStatus, EMPTY_DB, Zero(Idle, None, Activating({}, KeyUnknown)), {1});
    assert Last(t).servers == [Zero(Idle, None, Activating({}, KeyUnknown)), Off(1, "b")];
  }

  lemma Activated0() returns (t: Trace)
    ensures IsRun(t) && |t.steps| == 6 && Undisturbed(t)
    ensures Last(t) == World([], PUB7, [Zero(Active, None, Ready), Off(1, "b")], {1})
  {
    t := Started0();
    t := Next(t, 0, AReadHighest(0), EMPTY_DB, Zero(Idle, None, Activating({}, Inserting(0))), {1});
    assert Last(t).servers == [Zero(Idle, None, Activating({}, Inserting(0))), Off(1, "b")];
    t := Next(t, 0, AInsertKey(Acked), KEY7, Zero(Idle, None, Activating({}, Publishing(0))), {1});
    assert Last(t).servers == [Zero(Idle, None, Activating({}, Publishing(0))), Off(1, "b")];
    t := Next(t, 0, APublishActivate(Acked), PUB7, Zero(Active, None, Ready), {1});
    assert Last(t).servers == [Zero(Active, None, Ready), Off(1, "b")];
  }

  lemma Started1() returns (t: Trace)
    ensures IsRun(t) && |t.steps| == 9 && Undisturbed(t)
    ensures t.worlds[6].db == PUB7 && t.worlds[6].ledger == []
    ensures Last(t) == World([], PUB7, [Zero(Active, None, Ready), One(Idle, Activating({}, KeyUnknown))], {1, 2})
  {
    t := Activated0();
    t := Next(t, 1, AStartUp(8, 2), PUB7, One(Idle, Ready), {1, 2});
    assert Last(t).servers == [Zero(Active, None, Ready), One(Idle, Ready)];
    t := Next(t, 1, AActivate, PUB7, One(Idle, Activating({}, CheckingPeers)), {1, 2});
    assert Last(t).servers == [Zero(Active, None, Ready), One(Idle, Activating({}, CheckingPeers))];
    t := Next(t, 1, AReadStatus, PUB7, One(Idle, Activating({}, KeyUnknown)), {1, 2});
    assert Last(t).servers == [Zero(Active, None, Ready), One(Idle, Activating({}, KeyUnknown))];
  }

  lemma Activated1() returns (t: Trace)
    ensures IsRun(t) && |t.steps| == 12 && Undisturbed(t)
    ensures t.worlds[6].db == PUB7 && t.worlds[6].ledger == []
    ensures Last(t) == World([], PUB8, [Zero(Active, None, Ready), One(Active, Ready)], {1, 2})
  {
    t := Started1();
    t := Next(t, 1, AReadHighest(0), PUB7, One(Idle, Activating({}, Inserting(0))), {1, 2});
    assert Last(t).servers == [Zero(Active, None, Ready), One(Idle, Activating({}, Inserting(0)))];
    t := Next(t, 1, AInsertKey(Acked), KEY8, One(Idle, Activating({}, Publishing(0))), {1, 2});
    assert Last(t).servers == [Zero(Active, None, Ready), One(Idle, Activating({}, Publishing(0)))];
    t := Next(t, 1, APublishActivate(Acked), PUB8, One(Active, Ready), {1, 2});
    assert Last(t).servers == [Zero(Active, None, Ready), One(Active, Ready)];
  }

  /** A block follows; it is promised for both keys. */
  lemma Appended() returns (t: Trace)
    ensures IsRun(t) && |t.steps| == 13 && Undisturbed(t) && t.steps[12] == LedgerGrows(EMPTY_BLOCK)
    ensures t.worlds[6].db == PUB7 && t.worlds[6].ledger == [] && t.worlds[12].db == PUB8 && t.worlds[12].ledger == []
    ensures Last(t) == World([EMPTY_BLOCK], PUB8, [Zero(Active, None, Ready), One(Active, Ready)], {1, 2})
  {
    t := Activated1();
    t := Grow(t, EMPTY_BLOCK);
    assert [] + [EMPTY_BLOCK] == [EMPTY_BLOCK];
  }

  lemma Took() returns (t: Trace)
    ensures IsRun(t) && |t.steps| == 15 && Undisturbed(t)
    ensures t.steps[12] == LedgerGrows(EMPTY_BLOCK)
    ensures t.worlds[6].db == PUB7 && t.worlds[6].ledger == [] && t.worlds[12].db == PUB8 && t.worlds[12].ledger == []
    ensures Last(t)
            == World([EMPTY_BLOCK], TOOK, [Zero(Active, Some(0), Scanning(0, [], 0, 0)), One(Active, Ready)], {1, 2})
  {
    t := Appended();
    t := Next(t, 0, ABeginBlock(Acked), PUB8, Zero(Active, None, Reported), {1, 2});
    assert Last(t).servers == [Zero(Active, None, Reported), One(Active, Ready)];
    t := Next(t, 0, ATakeInvocation(Acked, 0), TOOK, Zero(Active, Some(0), Scanning(0, [], 0, 0)), {1, 2});
    assert Last(t).servers == [Zero(Active, Some(0), Scanning(0, [], 0, 0)), One(Active, Ready)];
  }

  lemma Stored() returns (t: Trace)
    ensures IsRun(t) && |t.steps| == 16 && Undisturbed(t)
    ensures t.steps[12] == LedgerGrows(EMPTY_BLOCK)
    ensures t.worlds[6].db == PUB7 && t.worlds[6].ledger == [] && t.worlds[12].db == PUB8 && t.worlds[12].ledger == []
    ensures Last(t).db == DONE
  {
    t := Took();
    t := Next(t, 0, AAddBlock(Acked), DONE, Zero(Active, Some(0), Committed(0, true)), {1, 2});
  }

  /** No key is ever lost in a run without a loss report. */
  lemma {:induction false} NothingLost(t: Trace, n: nat)
    requires IsRun(t) && n < |t.worlds| && Undisturbed(t)
    ensures forall k :: k in t.worlds[n].db.keys ==> !t.worlds[n].db.keys[k].lost
  {
    if n > 0 {
      NothingLost(t, n - 1);
      StaysUnlost(t.worlds[n - 1], t.steps[n - 1]);
    }
  }

  lemma StaysUnlost(w: World, step: Step)
    requires Enabled(w, step) && !step.Operator? && forall k :: k in w.db.keys ==> !w.db.keys[k].lost
    ensures forall k :: k in Apply(w, step).db.keys ==> !Apply(w, step).db.keys[k].lost
  {
    StepIsOp(w, step);
  }

  /** The records the view server read before key 8 was there. */
  function OldRecords(): seq<TrackedKey> {
    [TrackedKey(7, KeyRecord(KeyStatus(0, 10, false, false), None))]
  }

  lemma CountsThatBlock()
    ensures CountsTo(map[7 := 0], OldRecords(), 0, 1)
  {
    var processed: Progress := map[7 := 0];
    assert 7 in processed && 0 <= processed[7];
    assert !Known(processed, 1);
  }

  /** What the view server goes through: it reads the records in world 6, and fetches, loads and counts the
      block in world 16. */
  function Viewers(): seq<Viewer> {
    var read := NEW_VIEWER.(seen := 6, records := OldRecords());
    var fetched := read.(fetched := map[7 := 0], queue := [Fetched(7, 0)]);
    var loaded := fetched.(queue := [], processed := map[7 := 0]);
    [NEW_VIEWER, read, fetched, loaded, loaded.(count := 1)]
  }

  function ViewSteps(): seq<ViewStep> {
    [ViewStep(6, ReadKeys(OldRecords())), ViewStep(16, FetchBlock(0)), ViewStep(16, LoadBlock),
     ViewStep(16, CountBlocks)]
  }

  lemma ReadsAndFetches(t: Trace)
    requires |t.worlds| == 17 && t.worlds[6].db == PUB7 && t.worlds[16].db == DONE
    ensures ViewMoves(t, Viewers()[0], ViewSteps()[0], Viewers()[1])
    ensures ViewMoves(t, Viewers()[1], ViewSteps()[1], Viewers()[2])
  {
    assert OldRecords()[0].key == 7;
    assert IsRecordsOf(PUB7, OldRecords());
    assert DONE.blocks[0].key == 7 && DONE.blocks[0].block == 0;
  }

  lemma LoadsAndCounts(t: Trace)
    requires |t.worlds| == 17
    ensures ViewMoves(t, Viewers()[2], ViewSteps()[2], Viewers()[3])
    ensures ViewMoves(t, Viewers()[3], ViewSteps()[3], Viewers()[4])
  {
    CountsThatBlock();
  }

  /** The count passes block 0 while key 8, promised for it, has nothing loaded and nothing is reported missed. */
  lemma StaleRecordsMiscount() returns (t: Trace, r: ViewRun)
    ensures IsRun(t) && NoLostPublish(t, |t.steps|) && IsViewRun(t, r) && |r.steps| == 4
    ensures !Safe(t, |t.steps|, r.viewers[4]) && !SoundCounts(t, r, 4)
  {
    t := Stored();
    r := ViewRun(Viewers(), ViewSteps());
    ReadsAndFetches(t);
    LoadsAndCounts(t);
    assert IsViewRun(t, r);
    assert Promised(t, 12, 8);
    assert !Accounted(r.viewers[4], t.worlds[16].db, 8, 0);
    if SoundCounts(t, r, 4) {
      SoundCountsAreSafe(t, r, 4, 16);
      assert false;
    }
    forall m | 0 <= m < |t.steps|
      ensures !RaisesLostKey(t.worlds[m].db, StepOp(t.worlds[m], t.steps[m]))
    {
      NothingLost(t, m);
    }
  }
}
