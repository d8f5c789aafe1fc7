/**
 * A concrete run in which a failed ingest leaves a gap. One server with ingress key 7, one block with an output
 * for user 5 and one for user 6. The enclave's table overflows with the draw for user 6 in every attempt, the
 * enclave gives up under egress key 11, and the next attempt at the block goes through.
 */
module GapRun {
  import opened Prelude
  import opened Coverage
  import opened FogView
  import opened RecoveryTables
  import opened IngestEnclave
  import opened ControllerState
  import opened IngestProtocol
  import opened RngStreams
  import opened IngestFailures
  import opened RunBuilder

  function Txo(view: ViewKey): TxOut {
    TxOut(Amount([], 0), seq(32, _ => 0), seq(32, _ => 0), Sealed(7, Some(view)))
  }

  function OneBlock(): Block {
    Block(2, [Txo(5), Txo(6)])
  }

  function Cfg(): Config {
    Config({0}, 10, 2, "", false)
  }

  function Piece(): Chunk {
    Chunk(0, 0, 0, [Txo(5), Txo(6)])
  }

  function Overflows(): seq<Overflow> {
    seq(11, t requires 0 <= t < 11 => Overflow(1, {6}, 2 + t))
  }

  function GaveUp(): Enclave {
    Enclave(7, 11, map[5 := 1])
  }

  lemma EnclaveGivesUp(strays: nat -> ViewKey)
    ensures IngestTxs(E1, Piece(), strays, Overflows(), None, MAX_CHUNK_RETRIES) == ChunkTooBig(GaveUp())
    ensures OverflowsAtDraws(Overflows(), 7, Piece())
  {
    TooBigLeaves(Enclave(7, 1, map[]), Piece(), strays, Overflows(), None, MAX_CHUNK_RETRIES);
    assert Cut(Piece(), 2) == Piece();
    var both: map<ViewKey, nat> := map[5 := 1, 6 := 1];
    assert both - {6} == map[5 := 1];
  }

  function Wd(db: Db, s: Server, issued: set<EgressKey>): World {
    World([OneBlock()], db, [s], issued)
  }

  const E1 := Enclave(7, 1, map[])

  function Off(): Server {
    Server(Cfg(), Down, InitialState(Cfg()), Enclave(0, 0, map[]), Ready, None, {})
  }

  function Starting(pc: Pc): Server {
    Server(Cfg(), Up, StateValue(Idle, 0, 10, None, {0}), E1, pc, None, {1})
  }

  function Running(iid: Option<InvocationId>, pc: Pc): Server {
    Server(Cfg(), Up, StateValue(Active, 0, 10, iid, {0}), E1, pc, None, {1})
  }

  /** After the failure: same invocation, other egress key. */
  function Astray(e: Enclave, pc: Pc): Server {
    Server(Cfg(), Up, StateValue(Active, 0, 10, Some(0), {0}), e, pc, None, {1, 11})
  }

  const NEW_KEY := Db(map[7 := KeyStatus(0, 0, false, false)], [], [], [], map[])
  const PROMISED := Db(map[7 := KeyStatus(0, 10, false, false)], [], [], [], map["" := Report(7, None, 10)])
  const ANNOUNCED := PROMISED.(invocations := [Invocation(7, 1, 0, false)], events := [NewIngestInvocation(0)])
  const RENEWED := ANNOUNCED.(reports := map["" := Report(7, Some(0), 10)])

  function NoStrays(index: nat): ViewKey {
    index
  }

  function Drew(): Absorbed {
    Absorb(GaveUp(), Piece(), NoStrays)
  }

  function FinalDb(): Db {
    RENEWED.(blocks := [BlockRow(0, 7, 0, 2, 0, Drew().rows)])
  }

  lemma Activated() returns (t: Trace)
    ensures IsRun(t) && Last(t) == Wd(EMPTY_DB, Starting(Activating({}, CheckingPeers)), {1})
  {
    t := Trace([World([], EMPTY_DB, [Off()], {}), Wd(EMPTY_DB, Off(), {})], [LedgerGrows(OneBlock())]);
    t := Next(t, 0, AStartUp(7, 1), EMPTY_DB, Starting(Ready), {1});
    assert Last(t).servers == [Starting(Ready)];
    t := Next(t, 0, AActivate, EMPTY_DB, Starting(Activating({}, CheckingPeers)), {1});
    assert Last(t).servers == [Starting(Activating({}, CheckingPeers))];
  }

  lemma Chose() returns (t: Trace)
    ensures IsRun(t) && Last(t) == Wd(EMPTY_DB, Starting(Activating({}, Inserting(0))), {1})
  {
    t := Activated();
    t := Next(t, 0, AReadStatus, EMPTY_DB, Starting(Activating({}, KeyUnknown)), {1});
    assert Last(t).servers == [Starting(Activating({}, KeyUnknown))];
    t := Next(t, 0, AReadHighest(0), EMPTY_DB, Starting(Activating({}, Inserting(0))), {1});
    assert Last(t).servers == [Starting(Activating({}, Inserting(0)))];
  }

  lemma Promised() returns (t: Trace)
    ensures IsRun(t) && Last(t) == Wd(PROMISED, Running(None, Reported), {1})
  {
    t := Chose();
    t := Next(t, 0, AInsertKey(Acked), NEW_KEY, Starting(Activating({}, Publishing(0))), {1});
    assert Last(t).servers == [Starting(Activating({}, Publishing(0)))];
    t := Next(t, 0, APublishActivate(Acked), PROMISED, Running(None, Ready), {1});
    assert Last(t).servers == [Running(None, Ready)];
    t := Next(t, 0, ABeginBlock(Acked), PROMISED, Running(None, Reported), {1});
    assert Last(t).servers == [Running(None, Reported)];
  }

  lemma GivenUp() returns (t: Trace)
    ensures IsRun(t) && Last(t) == Wd(ANNOUNCED, Astray(GaveUp(), Ready), {1, 11})
  {
    t := Promised();
    t := Next(t, 0, ATakeInvocation(Acked, 0), ANNOUNCED, Running(Some(0), Scanning(0, [], 0, 0)), {1});
    assert Last(t).servers == [Running(Some(0), Scanning(0, [], 0, 0))];
    t := Next(t, 0, AIngestChunk(IngestFailed(GaveUp()), NoStrays), ANNOUNCED, Astray(GaveUp(), Ready), {1, 11});
    assert Last(t).servers == [Astray(GaveUp(), Ready)];
  }

  lemma Retried() returns (t: Trace)
    ensures IsRun(t) && Last(t) == Wd(RENEWED, Astray(GaveUp(), Scanning(0, [], 0, 0)), {1, 11})
  {
    t := GivenUp();
    t := Next(t, 0, ABeginBlock(Acked), RENEWED, Astray(GaveUp(), Reported), {1, 11});
    assert Last(t).servers == [Astray(GaveUp(), Reported)];
    t := Next(t, 0, ATakeInvocation(Acked, 0), RENEWED, Astray(GaveUp(), Scanning(0, [], 0, 0)), {1, 11});
    assert Last(t).servers == [Astray(GaveUp(), Scanning(0, [], 0, 0))];
  }

  lemma PublishedAnyway() returns (t: Trace)
    ensures IsRun(t) && Last(t) == Wd(FinalDb(), Astray(Drew().enclave, Committed(0, true)), {1, 11})
  {
    t := Retried();
    assert ChunkAt(OneBlock(), 0, 0, 0, 2) == Piece();
    assert [] + Drew().rows == Drew().rows;
    t := Next(t, 0, AIngestChunk(Kept, NoStrays), RENEWED, Astray(Drew().enclave, Scanning(0, Drew().rows, 2, 0)),
              {1, 11});
    assert Last(t).servers == [Astray(Drew().enclave, Scanning(0, Drew().rows, 2, 0))];
    t := Next(t, 0, AAddBlock(Acked), FinalDb(), Astray(Drew().enclave, Committed(0, true)), {1, 11});
    assert Last(t).servers == [Astray(Drew().enclave, Committed(0, true))];
  }

  /** The database of this run misses the first output of the rng shared by egress key 11 and user 5, and
      nobody was told of that egress key. The failure in it is one the enclave really has. */
  lemma FailedIngestLeavesGap() returns (t: Trace)
    ensures IsRun(t)
    ensures OverflowsAtDraws(Overflows(), 7, Piece())
    ensures IngestTxs(E1, Piece(), NoStrays, Overflows(), None, MAX_CHUNK_RETRIES) == ChunkTooBig(GaveUp())
    ensures !Gapless(Published(Last(t).db.blocks, SharedSecret(11, 5)), SharedSecret(11, 5))
    ensures 11 !in EgressKeys(Last(t).db.invocations)
  {
    t := PublishedAnyway();
    EnclaveGivesUp(NoStrays);
    StoredHasGap();
  }

  lemma StoredHasGap()
    ensures !Gapless(Published(FinalDb().blocks, SharedSecret(11, 5)), SharedSecret(11, 5))
  {
    var secret := SharedSecret(11, 5);
    PublishedAppend([], FinalDb().blocks[0], secret);
    assert [] + FinalDb().blocks == FinalDb().blocks && Published([], secret) == [];
    assert [] + KeysOf(Drew().rows, secret) == KeysOf(Drew().rows, secret);
    DrawsNotFromStart(GaveUp(), Piece(), NoStrays, 5);
  }

  /** Rows drawn by an enclave that had drawn before do not form a stream by themselves. */
  lemma DrawsNotFromStart(e: Enclave, c: Chunk, strays: nat -> ViewKey, view: ViewKey)
    requires 0 < Drawn(e, view) < TWO64 && KeysOf(Absorb(e, c, strays).rows, SharedSecret(e.egress, view)) != []
    ensures var secret := SharedSecret(e.egress, view); !Gapless(KeysOf(Absorb(e, c, strays).rows, secret), secret)
  {
    var secret := SharedSecret(e.egress, view);
    AbsorbDraws(e, c, strays, view);
    TailHasGap(secret, Drawn(e, view), KeysOf(Absorb(e, c, strays).rows, secret),
               Drawn(Absorb(e, c, strays).enclave, view));
  }

  lemma TailHasGap(secret: Secret, d: nat, keys: seq<SearchKey>, n: nat)
    requires Outputs(secret, d) + keys == Outputs(secret, n) && 0 < d < TWO64 && keys != []
    ensures !Gapless(keys, secret)
  {
    assert (Outputs(secret, d) + keys)[d] == keys[0];
    OutputsAt(secret, n, d);
    OutputsAt(secret, |keys|, 0);
  }
}
