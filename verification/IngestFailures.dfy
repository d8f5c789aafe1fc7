/**
 * What the no-gap guarantee needs. When ingest_txs fails, process_next_block returns without giving up
 * its invocation id and without a new egress key (fog/ingest/server/src/controller.rs:424-427), although
 * the enclave has already rotated and drawn. The next attempt then publishes under an egress key nobody
 * was told about, from the middle of its rngs.
 */
module IngestFailures {
  import opened Prelude
  import opened FogView
  import opened IngestEnclave
  import opened ControllerState
  import opened IngestProtocol
  import opened Contiguity
  import opened RngStreams
  import opened RngRuns

  function OutcomeOf(r: IngestResult): EnclaveOutcome {
    match r
    case Ingested(_, _, None) => Kept
    case Ingested(_, _, Some(egress)) => Rotated(egress)
    case ChunkTooBig(e) => IngestFailed(e)
  }

  /** Handing the next chunk to the enclave keeps every server's rngs in step with the database and with
      what clients were told if and only if the chunk overflows the enclave no more often than it is
      retried. */
  lemma ChunkKeepsRngsIff(w: World, i: ServerId, overflows: seq<Overflow>, strays: nat -> ViewKey)
    requires Inv(w) && RngInv(w) && i < |w.servers|
    requires var s := w.servers[i];
             && s.run.Up? && Scannable(w.ledger, s)
             && forall t :: 0 <= t < |overflows| ==> overflows[t].nextEgress !in w.issued
    requires Enabled(w, By(i, AIngestChunk(OutcomeOf(Result(w, i, overflows, strays)), strays)))
    ensures RngInv(Apply(w, By(i, AIngestChunk(OutcomeOf(Result(w, i, overflows, strays)), strays)))) <==>
              |overflows| <= MAX_CHUNK_RETRIES
  {
    var s := w.servers[i];
    var c := ChunkAt(w.ledger[s.pc.block], s.pc.block, s.pc.timestamp, s.pc.pos, s.cfg.maxTransactions);
    var step := By(i, AIngestChunk(OutcomeOf(Result(w, i, overflows, strays)), strays));
    TooBigIff(s.enc, c, strays, overflows, None, MAX_CHUNK_RETRIES);
    if |overflows| <= MAX_CHUNK_RETRIES {
      StepKeepsRng(w, step);
    } else {
      TooBigLeaves(s.enc, c, strays, overflows, None, MAX_CHUNK_RETRIES);
      var s' := Apply(w, step).servers[i];
      assert RngOk(w.db, s) && Holds(w.db, s) && s.mine <= w.issued;
      assert !AnnouncedOk(w.db, s');
    }
  }

  /** What the enclave makes of the next chunk. */
  function Result(w: World, i: ServerId, overflows: seq<Overflow>, strays: nat -> ViewKey): IngestResult
    requires i < |w.servers| && Scannable(w.ledger, w.servers[i])
  {
    var s := w.servers[i];
    IngestTxs(s.enc, ChunkAt(w.ledger[s.pc.block], s.pc.block, s.pc.timestamp, s.pc.pos, s.cfg.maxTransactions),
              strays, overflows, None, MAX_CHUNK_RETRIES)
  }
}
