/**
 * The ingest controller as an object (fog/ingest/server/src/controller.rs): it drives the database,
 * the enclave and its own state through the steps of one block, with the chunk loop and the retry
 * loops of the source. Every execution is a path of the protocol of IngestProtocol, with any
 * transactions of other servers between any two of its own.
 *
 * What the environment decides is a script: what others commit before each of our calls, how each call
 * ends, when the enclave overflows. When a retry loop's script runs out the process is killed there.
 */
module IngestController {
  import opened Prelude
  import opened Coverage
  import opened FogView
  import opened RecoveryTables
  import opened IngestEnclave
  import opened ControllerState
  import opened IngestProtocol
  import opened StartBlocks
  import opened LedgerRecords
  import opened LocalRuns
  import opened SqlRecoveryDb
  import opened SgxIngestEnclave

  /** What the others commit before a call of ours, and how the call ends for us. */
  datatype Call = Call(others: seq<DbOp>, out: Outcome)

  datatype ChunkScript = ChunkScript(overflows: seq<Overflow>, rotations: seq<Call>)
  datatype BlockScript = BlockScript(
    timestamp: nat, report: Call, invocation: Call, strays: nat -> ViewKey, chunks: nat -> ChunkScript,
    commits: seq<Call>, drop: Call, egress: EgressKey)

  /** The enclave's table overflows only while something is drawn. */
  ghost predicate ScriptOk(script: BlockScript, ingress: IngressKey, b: Block, size: nat) {
    forall pos :: 0 <= pos < |b.outputs| ==> OverflowsWithin(script.chunks(pos).overflows, ingress, b, pos, size)
  }

  ghost predicate OverflowsWithin(overflows: seq<Overflow>, ingress: IngressKey, b: Block, pos: nat, size: nat)
    requires pos < |b.outputs|
  {
    OverflowsAtDraws(overflows, ingress, Chunk(0, 0, 0, b.outputs[pos..Min(pos + size, |b.outputs|)]))
  }

  /** What the watcher says when asked for the timestamp of a block. */
  datatype WatcherReply =
    | TimestampFound(timestamp: nat)
    | BlockIndexOutOfBounds
    | WatcherBehind
    | Unavailable
    | WatcherDatabaseError
    | WatcherError

  /** One round of the worker: how many blocks the ledger shows, and if one is processed, what the watcher says
      each time it is asked and how the processing goes. */
  datatype Round = Round(height: nat, watcher: seq<WatcherReply>, script: BlockScript)

  /** What a peer says about itself. */
  datatype PeerStatus = PeerStatus(mode: IngestMode, ingress: IngressKey, peers: set<ServerId>)

  /** A peer's answers to being asked for its status, sent our key and sent our peer list; None if it cannot be
      reached. */
  datatype PeerAnswers = PeerAnswers(
    status: Option<PeerStatus>, setKey: Option<PeerStatus>, setPeers: Option<PeerStatus>)

  datatype ActivateScript = ActivateScript(
    peers: ServerId -> PeerAnswers, status: Call, last: Call, highest: Call, insert: Call, report: Call)

  predicate SaysIdle(a: PeerAnswers) {
    a.status.Some? && a.status.value.mode.Idle?
  }

  /** The peer is an idle backup of this key and this peer list, or was made one. */
  predicate BacksUp(a: PeerAnswers, key: IngressKey, peers: set<ServerId>) {
    && SaysIdle(a)
    && (a.status.value.ingress == key || (a.setKey.Some? && a.setKey.value.ingress == key))
    && (a.status.value.peers == peers || (a.setPeers.Some? && a.setPeers.value.peers == peers))
  }

  /** The enclave never overflows. */
  ghost predicate Quiet(script: BlockScript, b: Block) {
    forall pos :: 0 <= pos < |b.outputs| ==> script.chunks(pos).overflows == []
  }

  /** Nothing but chunks handed over without a rotation. */
  ghost predicate OnlyKept(steps: seq<LocalStep>, strays: nat -> ViewKey) {
    forall x :: 0 <= x < |steps| ==> steps[x] == Mine(AIngestChunk(Kept, strays))
  }

  /** The server has handed over a prefix of the block: its rows and its enclave are those of handing that
      prefix over at once. */
  ghost predicate AtOnce(b: Block, block: nat, timestamp: nat, strays: nat -> ViewKey, e: Enclave, s: Server) {
    && s.pc.Scanning? && s.pc.block == block && s.pc.timestamp == timestamp
       && s.pc.pos <= |b.outputs| <= b.cumulativeTxoCount
    && Absorb(e, Prefix(b, block, timestamp, s.pc.pos), strays) == Absorbed(s.enc, s.pc.rows)
  }

  lemma ChunkAtOnce(b: Block, block: nat, timestamp: nat, strays: nat -> ViewKey, e: Enclave, s: Server)
    requires AtOnce(b, block, timestamp, strays, e, s)
    ensures AtOnce(b, block, timestamp, strays, e, IngestChunk(b, s, Kept, strays))
  {
    var c := ChunkAt(b, block, timestamp, s.pc.pos, s.cfg.maxTransactions);
    var more := Absorb(s.enc, c, strays);
    ChunkContinues(b, block, timestamp, s.pc.pos, s.cfg.maxTransactions);
    AbsorbTwo(e, Prefix(b, block, timestamp, s.pc.pos), s.enc, s.pc.rows, c, more.enclave, more.rows, strays);
  }

  /** Chunking preserves meaning: whatever the chunk size, handing a block over in chunks without rotation
      gives the rows and the enclave of handing it over at once. */
  lemma {:induction false} ChunksAreOneBlock(ledger: seq<Block>, id: ServerId, l: Local, steps: seq<LocalStep>,
                                             l': Local, strays: nat -> ViewKey)
    requires l.server.pc.Scanning? && l.server.pc.pos == 0 && l.server.pc.rows == [] && l.server.pc.block < |ledger|
    requires |ledger[l.server.pc.block].outputs| <= ledger[l.server.pc.block].cumulativeTxoCount
    requires OnlyKept(steps, strays) && Exec(ledger, id, l, steps) == Some(l')
    ensures AtOnce(ledger[l.server.pc.block], l.server.pc.block, l.server.pc.timestamp, strays, l.server.enc, l'.server)
  {
    if |steps| > 0 {
      var mid := Exec(ledger, id, l, steps[..|steps| - 1]).value;
      ChunksAreOneBlock(ledger, id, l, steps[..|steps| - 1], mid, strays);
      ChunkAtOnce(ledger[l.server.pc.block], l.server.pc.block, l.server.pc.timestamp, strays, l.server.enc,
                  mid.server);
      assert Lone(ledger, id, mid).servers[id] == mid.server;
    }
  }

  /** An egress key the enclave drew when its table overflowed. */
  ghost predicate DrawnAmong(overflows: seq<Overflow>, egress: EgressKey) {
    exists x :: 0 <= x < |overflows| && overflows[x].nextEgress == egress
  }

  /** What the enclave's result means for a server in the middle of a block. */
  lemma ChunkOutcome(b: Block, s: Server, c: Chunk, strays: nat -> ViewKey, overflows: seq<Overflow>, after: Enclave,
                     r: Option<(seq<ETxOutRecord>, Option<EgressKey>)>)
    returns (outcome: EnclaveOutcome)
    requires s.pc.Scanning? && s.pc.pos < |b.outputs| <= b.cumulativeTxoCount
    requires c == ChunkAt(b, s.pc.block, s.pc.timestamp, s.pc.pos, s.cfg.maxTransactions)
    requires IngestTxs(s.enc, c, strays, overflows, None, MAX_CHUNK_RETRIES)
             == if r.Some? then Ingested(after, r.value.0, r.value.1) else ChunkTooBig(after)
    ensures outcome == if r.None? then IngestFailed(after) else if overflows == [] then Kept else Rotated(after.egress)
    ensures r.Some? ==> r.value.1 == if overflows == [] then None else Some(after.egress)
    ensures var s' := IngestChunk(b, s, outcome, strays);
            && s' == s.(enc := after, mine := s'.mine, pc := s'.pc)
            && s'.mine == (if outcome.Kept? then s.mine else s.mine + {after.egress})
            && s'.pc == match outcome {
                 case IngestFailed(_) => Ready
                 case Kept => Scanning(s.pc.block, s.pc.rows + r.value.0, s.pc.pos + |c.outputs|, s.pc.timestamp)
                 case Rotated(egress) =>
                   Rotating(s.pc.block, s.pc.rows + r.value.0, s.pc.pos + |c.outputs|, s.pc.timestamp, egress) }
    ensures overflows == [] ==> r.Some?
    ensures !outcome.Kept? ==> DrawnAmong(overflows, after.egress)
  {
    TooBigIff(s.enc, c, strays, overflows, None, MAX_CHUNK_RETRIES);
    outcome := if r.None? then IngestFailed(after) else if overflows == [] then Kept else Rotated(after.egress);
    if r.Some? && overflows != [] {
      RotationRestartsChunk(s.enc, c, strays, overflows, None, MAX_CHUNK_RETRIES);
      assert overflows[|overflows| - 1].nextEgress == after.egress;
    } else if r.None? {
      TooBigLeaves(s.enc, c, strays, overflows, None, MAX_CHUNK_RETRIES);
      assert overflows[MAX_CHUNK_RETRIES - 1].nextEgress == after.egress;
    }
  }

  datatype Ending = Done | IngestError | Fatal | Killed

  /** Every attempt to record a rotation, with what the others commit before it. */
  function RotationSteps(calls: seq<Call>): seq<LocalStep> {
    if |calls| == 0 then []
    else
      var last := calls[|calls| - 1];
      RotationSteps(calls[..|calls| - 1]) + [Others(last.others), Mine(ARecordRotation(last.out))]
  }

  /** Every attempt to commit the block. */
  function CommitSteps(calls: seq<Call>): seq<LocalStep> {
    if |calls| == 0 then []
    else
      var last := calls[|calls| - 1];
      CommitSteps(calls[..|calls| - 1]) + [Others(last.others), Mine(AAddBlock(last.out))]
  }

  ghost predicate EndsWith(steps: seq<LocalStep>, last: seq<LocalStep>) {
    |last| <= |steps| && steps[|steps| - |last|..] == last
  }

  /** A block is given up only where the source does so: when a chunk overflows the enclave too often, or when the
      process is killed in a retry loop, with every attempt of the script made. */
  ghost predicate EndsRightly(script: BlockScript, b: Block, end: Ending, pc: Pc, steps: seq<LocalStep>) {
    && (end.IngestError? ==> pc.Ready? && Overflowed(script, b))
    && (end.Killed? ==> (pc.Rotating? && RotatedInVain(script, b, steps)) ||
                        (pc.Scanning? && EndsWith(steps, CommitSteps(script.commits))))
  }

  /** The same before the commit. */
  ghost predicate EndsInside(script: BlockScript, b: Block, end: Ending, pc: Pc, steps: seq<LocalStep>) {
    && (end.IngestError? ==> pc.Ready? && Overflowed(script, b))
    && (end.Killed? ==> pc.Rotating? && RotatedInVain(script, b, steps))
  }

  ghost predicate Overflowed(script: BlockScript, b: Block) {
    exists pos :: 0 <= pos < |b.outputs| && |script.chunks(pos).overflows| > MAX_CHUNK_RETRIES
  }

  ghost predicate RotatedInVain(script: BlockScript, b: Block, steps: seq<LocalStep>) {
    exists pos :: 0 <= pos < |b.outputs| && EndsWith(steps, RotationSteps(script.chunks(pos).rotations))
  }

  lemma EndsWithLonger(before: seq<LocalStep>, steps: seq<LocalStep>, last: seq<LocalStep>)
    requires EndsWith(steps, last)
    ensures EndsWith(before + steps, last)
  {
    assert (before + steps)[|before + steps| - |last|..] == steps[|steps| - |last|..];
  }

  lemma InVainLonger(script: BlockScript, b: Block, before: seq<LocalStep>, steps: seq<LocalStep>)
    requires RotatedInVain(script, b, steps)
    ensures RotatedInVain(script, b, before + steps)
  {
    var pos :| 0 <= pos < |b.outputs| && EndsWith(steps, RotationSteps(script.chunks(pos).rotations));
    EndsWithLonger(before, steps, RotationSteps(script.chunks(pos).rotations));
  }

  /** Where to start, by the tables as they are when they are read: after the others' transactions before the call. */
  ghost predicate Starts(db: Db, script: ActivateScript, key: IngressKey, ledgerNumBlocks: nat, start: nat) {
    var seen := DbRun(db, script.status.others);
    if key in seen.keys then
      StartsAfterOwn(DbRun(seen, script.last.others).blocks, key, seen.keys[key].startBlock, start)
    else StartsAfterAll(DbRun(seen, script.highest.others).blocks, ledgerNumBlocks, start)
  }

  /** All calls by which the start block is chosen are answered, and no one else inserts our key in between. */
  ghost predicate Answered(db: Db, script: ActivateScript, key: IngressKey) {
    var seen := DbRun(db, script.status.others);
    && script.status.out.Acked?
    && if key in seen.keys then script.last.out.Acked?
       else
         && script.highest.out.Acked? && script.insert.out.Acked?
         && key !in DbRun(DbRun(seen, script.highest.others), script.insert.others).keys
  }

  /** A key that was not known when its status was read is inserted with that start block. */
  ghost predicate Inserted(db: Db, script: ActivateScript, key: IngressKey, start: nat,
                           keys: map<IngressKey, KeyStatus>)
  {
    key in DbRun(db, script.status.others).keys || (key in keys && keys[key].startBlock == start)
  }

  class IngestController {
    const id: ServerId
    const cfg: Config
    const db: SqlRecoveryDb
    const state: IngestControllerState
    const enclave: SgxIngestEnclave
    var lastSealedKey: Option<IngressKey>
    var stateFile: Option<StateFile>
    ghost var pc: Pc
    ghost var mine: set<EgressKey>

    ghost predicate Valid()
      reads this, enclave
    {
      enclave.Valid()
    }

    ghost function AsServer(): Server
      reads this, state, enclave
    {
      Server(cfg, Up, state.Value(), enclave.Value(), pc, stateFile, mine)
    }

    ghost function AsLocal(): Local
      reads this, db, state, enclave
    {
      Local(db.Value(), AsServer())
    }

    constructor (id: ServerId, cfg: Config, db: SqlRecoveryDb, enclave: SgxIngestEnclave)
      requires enclave.Valid()
      ensures Valid() && this.id == id && this.cfg == cfg && this.db == db && this.enclave == enclave
      ensures fresh(state) && state.Value() == InitialState(cfg)
      ensures pc == Ready && stateFile == None && mine == {enclave.egressKey}
    {
      this.id, this.cfg, this.db, this.enclave := id, cfg, db, enclave;
      state := new IngestControllerState(cfg.peers, cfg.window);
      lastSealedKey, stateFile := None, None;
      pc, mine := Ready, {enclave.egressKey};
    }

    /** The transactions of the others. */
    method RunOthers(ops: seq<DbOp>)
      modifies db
      ensures db.Value() == DbRun(old(db.Value()), ops)
    {
      for n := 0 to |ops|
        invariant db.Value() == DbRun(old(db.Value()), ops[..n])
      {
        assert ops[..n + 1][..n] == ops[..n];
        match ops[n]
        case OpNone =>
        case OpNewKey(key, startBlock) => var _ := db.NewIngressKey(key, startBlock);
        case OpRetire(key, setRetired) => db.RetireIngressKey(key, setRetired);
        case OpNewInvocation(prev, key, egress, startBlock) =>
          var _ := db.NewIngestInvocation(prev, key, egress, startBlock);
        case OpDecommission(iid) => var _ := db.DecommissionIngestInvocation(iid);
        case OpAddBlock(iid, block, cumulative, timestamp, records) =>
          var _ := db.AddBlockData(iid, block, cumulative, timestamp, records);
        case OpReportLost(key) => var _ := db.ReportLostIngressKey(key);
        case OpSetReport(key, reportId, publisher, expiry) => var _ := db.SetReport(key, reportId, publisher, expiry);
        case OpRemoveReport(reportId) => db.RemoveReport(reportId);
      }
      assert ops[..|ops|] == ops;
    }

    // ---- state file -----------------------------------------------------------------------------

    /** The state file says what this server is doing, and with which key. */
    ghost predicate Described()
      reads this, state, enclave
    {
      && stateFile.Some? && stateFile.value.sealedKey == enclave.ingressKey
      && var f := stateFile.value.summary;
      && f.mode == state.mode && f.nextBlockIndex == state.nextBlockIndex && f.window == state.pubkeyExpiryWindow
      && f.peers == state.peers && f.ingress == enclave.ingressKey
    }

    /** Write the summary together with a sealed key of the same ingress key. The cached sealed key may be
        of an older key; then it is thrown away and the pair is formed again. */
    method WriteStateFile()
      requires Valid()
      modifies this
      ensures Valid() && AsServer() == IngestProtocol.WriteStateFile(old(AsServer()))
      ensures cfg.stateFile ==> Described()
    {
      if cfg.stateFile {
        while true
          invariant Valid() && AsServer() == old(AsServer())
          decreases if lastSealedKey == Some(enclave.ingressKey) then 0 else if lastSealedKey.None? then 1 else 2
        {
          var summary :=
            Summary(state.mode, state.nextBlockIndex, state.pubkeyExpiryWindow, state.peers, enclave.ingressKey);
          var sealed := if lastSealedKey.Some? then lastSealedKey.value else enclave.ingressKey;
          lastSealedKey := Some(sealed);
          if sealed == summary.ingress {
            stateFile := Some(StateFile(summary, sealed));
            return;
          }
          lastSealedKey := None;
        }
      }
    }

    // ---- parts of process_next_block ------------------------------------------------------------------

    /** Publish our report; None stands for any error. */
    method PublishReport(out: Outcome) returns (status: Option<KeyStatusReply>)
      modifies db
      ensures db.Value() == Commit(old(db.Value()), ReportOp(AsServer()), out)
      ensures status == Reply(old(db.Value()), ReportOp(AsServer()), out)
    {
      if out.Failed? {
        return None;
      }
      var r := db.SetReport(enclave.ingressKey, cfg.reportId, state.ingestInvocationId,
                            state.nextBlockIndex + state.pubkeyExpiryWindow);
      if out.LostAck? || r.Err? {
        return None;
      }
      status := Some(KeyStatusReply(r.value.retired, r.value.pubkeyExpiry));
    }

    method StartBlock(call: Call) returns (expired: bool)
      requires Valid()
      modifies this, db, state
      ensures Valid() && AsLocal() == BeginBlock(DbRun(old(db.Value()), call.others), old(AsServer()), call.out)
      ensures expired <==> pc.GoingIdle?
      ensures expired <==> call.out.Acked? && NothingLeft(db.keys, enclave.ingressKey, state.nextBlockIndex)
    {
      RunOthers(call.others);
      var status := PublishReport(call.out);
      expired := status.Some? && status.value.retired && state.nextBlockIndex > status.value.pubkeyExpiry;
      if expired {
        state.SetIdle();
      }
      pc := if expired then GoingIdle else Reported;
    }

    /** Failing to record an invocation brings the process down. */
    method ObtainInvocation(call: Call, timestamp: nat) returns (ok: bool)
      requires Valid()
      modifies this, db, state
      ensures Valid()
      ensures ok ==> AsLocal()
                     == TakeInvocation(DbRun(old(db.Value()), call.others), old(AsServer()), call.out, timestamp)
      ensures ok ==> pc == Scanning(state.nextBlockIndex, [], 0, timestamp)
                     && state.nextBlockIndex == old(state.nextBlockIndex)
      ensures ok ==> state.ingestInvocationId.Some? && state.mode == old(state.mode)
      ensures !ok ==> AsServer() == old(AsServer())
                      && TakeInvocation(DbRun(old(db.Value()), call.others), old(AsServer()), call.out, timestamp)
                         == Local(db.Value(), Crashed(AsServer()))
    {
      RunOthers(call.others);
      if state.ingestInvocationId.None? {
        if call.out.Failed? {
          return false;
        }
        var r := db.NewIngestInvocation(None, enclave.ingressKey, enclave.egressKey, state.nextBlockIndex);
        if call.out.LostAck? || r.Err? {
          return false;
        }
        state.SetIngestInvocationId(Some(r.value));
      }
      pc := Scanning(state.nextBlockIndex, [], 0, timestamp);
      ok := true;
    }

    /** One attempt to replace our invocation after the egress key was rotated. */
    method RotateInvocation(call: Call) returns (ok: bool)
      requires Valid() && pc.Rotating? && pc.egress == enclave.egressKey && pc.block == state.nextBlockIndex
      modifies this, db, state
      ensures Valid() && AsLocal() == RecordRotation(DbRun(old(db.Value()), call.others), old(AsServer()), call.out)
      ensures ok ==> pc == Scanning(old(pc).block, old(pc).rows, old(pc).pos, old(pc).timestamp)
                     && state.ingestInvocationId.Some?
      ensures !ok ==> pc == old(pc)
      ensures state.nextBlockIndex == old(state.nextBlockIndex) && state.mode == old(state.mode)
    {
      RunOthers(call.others);
      if call.out.Failed? {
        return false;
      }
      var r := db.NewIngestInvocation(state.ingestInvocationId, enclave.ingressKey, enclave.egressKey,
                                      state.nextBlockIndex);
      if call.out.LostAck? || r.Err? {
        return false;
      }
      state.SetIngestInvocationId(Some(r.value));
      pc := Scanning(pc.block, pc.rows, pc.pos, pc.timestamp);
      ok := true;
    }

    /** One attempt to commit the block; Some(won) when the database answered. */
    method TryCommit(b: Block, rows: seq<ETxOutRecord>, timestamp: nat, call: Call) returns (won: Option<bool>)
      requires Valid() && state.ingestInvocationId.Some?
      requires pc.Scanning? && pc.block == state.nextBlockIndex && pc.rows == rows && pc.timestamp == timestamp
      modifies this, db
      ensures Valid() && AsLocal() == AddBlock(b, DbRun(old(db.Value()), call.others), old(AsServer()), call.out)
      ensures won.Some? ==> pc == Committed(state.nextBlockIndex, won.value)
      ensures won.None? ==> pc == old(pc)
    {
      RunOthers(call.others);
      if call.out.Failed? {
        return None;
      }
      var r := db.AddBlockData(state.ingestInvocationId.value, state.nextBlockIndex, b.cumulativeTxoCount, timestamp,
                               rows);
      if call.out.LostAck? || r.Err? {
        return None;
      }
      pc := Committed(pc.block, !r.value);
      won := Some(!r.value);
    }

    /** Drop our invocation id, whether or not the database hears of it. */
    method DecommissionInvocation(call: Call)
      requires Valid()
      modifies this, db, state
      ensures Valid() && AsLocal() == DropInvocation(DbRun(old(db.Value()), call.others), old(AsServer()), call.out)
      ensures pc == Rekeying && state.mode == old(state.mode)
    {
      RunOthers(call.others);
      if state.ingestInvocationId.Some? {
        if !call.out.Failed? {
          var _ := db.DecommissionIngestInvocation(state.ingestInvocationId.value);
        }
        state.SetIngestInvocationId(None);
      }
      pc := Rekeying;
    }

    /** Forget the rngs: whatever was drawn and not published is never mixed with what comes next. */
    method NewEgressKey(call: Call, egress: EgressKey)
      requires Valid()
      modifies this, db, state, enclave
      ensures Valid() && pc == Ready
      ensures AsLocal() == Local(DropInvocation(DbRun(old(db.Value()), call.others), old(AsServer()), call.out).db,
                                 Rekey(DropInvocation(DbRun(old(db.Value()), call.others), old(AsServer()),
                                                      call.out).server, egress))
      ensures enclave.ingressKey == old(enclave.ingressKey)
      ensures cfg.stateFile ==> Described()
    {
      DecommissionInvocation(call);
      enclave.NewEgressKey(egress);
      mine, pc := {egress}, Ready;
      lastSealedKey := None;
      WriteStateFile();
    }

    // ---- the chunk loop --------------------------------------------------------------------------------

    /** Run one chunk through the enclave. A rotation made on the way shows in the result. */
    method IngestOne(b: Block, c: Chunk, strays: nat -> ViewKey, overflows: seq<Overflow>)
      returns (r: Option<(seq<ETxOutRecord>, Option<EgressKey>)>, ghost outcome: EnclaveOutcome)
      requires Valid() && pc.Scanning? && pc.pos < |b.outputs| <= b.cumulativeTxoCount
      requires c == ChunkAt(b, pc.block, pc.timestamp, pc.pos, cfg.maxTransactions)
      requires OverflowsAtDraws(overflows, enclave.ingressKey, c)
      modifies this, enclave
      ensures Valid() && enclave.ingressKey == old(enclave.ingressKey)
      ensures AsServer() == IngestChunk(b, old(AsServer()), outcome, strays)
      ensures outcome.IngestFailed? ==> outcome.after == enclave.Value()
      ensures r.None? <==> outcome.IngestFailed?
      ensures r.None? <==> |overflows| > MAX_CHUNK_RETRIES
      ensures overflows == [] <==> outcome.Kept?
      ensures !outcome.Kept? ==> DrawnAmong(overflows, enclave.egressKey)
      ensures outcome.Kept? ==>
                && r.Some? && r.value.1 == None
                && pc == Scanning(old(pc).block, old(pc).rows + r.value.0, old(pc).pos + |c.outputs|, old(pc).timestamp)
      ensures outcome.Rotated? ==>
                && r.value.1 == Some(enclave.egressKey)
                && pc == Rotating(old(pc).block, old(pc).rows + r.value.0, old(pc).pos + |c.outputs|, old(pc).timestamp,
                                  enclave.egressKey)
    {
      ghost var s := AsServer();
      r := enclave.IngestTxs(c, strays, overflows);
      outcome := ChunkOutcome(b, s, c, strays, overflows, enclave.Value(), r);
      if r.None? {
        mine, pc := mine + {enclave.egressKey}, Ready;
      } else if r.value.1.None? {
        pc := Scanning(pc.block, pc.rows + r.value.0, pc.pos + |c.outputs|, pc.timestamp);
      } else {
        mine := mine + {enclave.egressKey};
        pc := Rotating(pc.block, pc.rows + r.value.0, pc.pos + |c.outputs|, pc.timestamp, enclave.egressKey);
      }
    }

    /** Keep trying to record the rotation. */
    method RotateRetrying(calls: seq<Call>, ghost ledger: seq<Block>) returns (ok: bool, ghost steps: seq<LocalStep>)
      requires Valid() && pc.Rotating? && pc.egress == enclave.egressKey && pc.block == state.nextBlockIndex
      modifies this, db, state
      ensures Valid() && Exec(ledger, id, old(AsLocal()), steps) == Some(AsLocal())
      ensures ok ==> pc == Scanning(old(pc).block, old(pc).rows, old(pc).pos, old(pc).timestamp)
                     && state.ingestInvocationId.Some?
      ensures !ok ==> pc == old(pc) && steps == RotationSteps(calls)
      ensures state.nextBlockIndex == old(state.nextBlockIndex) && state.mode == old(state.mode)
    {
      ok, steps := false, [];
      var n := 0;
      while n < |calls| && !ok
        invariant Valid() && Exec(ledger, id, old(AsLocal()), steps) == Some(AsLocal())
        invariant n <= |calls| && (!ok ==> pc == old(pc) && steps == RotationSteps(calls[..n]))
        invariant ok ==> pc == Scanning(old(pc).block, old(pc).rows, old(pc).pos, old(pc).timestamp)
                         && state.ingestInvocationId.Some?
        invariant state.nextBlockIndex == old(state.nextBlockIndex) && state.mode == old(state.mode)
        decreases |calls| - n
      {
        ghost var mid := AsLocal();
        ok := RotateInvocation(calls[n]);
        assert calls[..n + 1][..n] == calls[..n];
        ExecMine(ledger, id, old(AsLocal()), steps, mid, calls[n].others, ARecordRotation(calls[n].out));
        steps := steps + [Others(calls[n].others), Mine(ARecordRotation(calls[n].out))];
        n := n + 1;
      }
      assert calls[..|calls|] == calls;
    }

    /** The same as a step of a path. */
    method IngestStep(b: Block, c: Chunk, strays: nat -> ViewKey, overflows: seq<Overflow>, ghost ledger: seq<Block>,
                      ghost l: Local, ghost before: seq<LocalStep>)
      returns (r: Option<(seq<ETxOutRecord>, Option<EgressKey>)>, ghost steps: seq<LocalStep>)
      requires Valid() && pc.Scanning? && pc.pos < |b.outputs| <= b.cumulativeTxoCount
      requires c == ChunkAt(b, pc.block, pc.timestamp, pc.pos, cfg.maxTransactions)
      requires OverflowsAtDraws(overflows, enclave.ingressKey, c)
      requires pc.block < |ledger| && ledger[pc.block] == b && Exec(ledger, id, l, before) == Some(AsLocal())
      modifies this, enclave
      ensures Valid() && enclave.ingressKey == old(enclave.ingressKey)
      ensures Exec(ledger, id, l, steps) == Some(AsLocal())
      ensures overflows == [] ==> r.Some? && r.value.1 == None && steps == before + [Mine(AIngestChunk(Kept, strays))]
      ensures r.None? ==> pc.Ready? && |overflows| > MAX_CHUNK_RETRIES
      ensures r.Some? && r.value.1.None? ==>
                pc == Scanning(old(pc).block, old(pc).rows + r.value.0, old(pc).pos + |c.outputs|, old(pc).timestamp)
      ensures r.Some? && r.value.1.Some? ==>
                pc == Rotating(old(pc).block, old(pc).rows + r.value.0, old(pc).pos + |c.outputs|, old(pc).timestamp,
                               enclave.egressKey)
    {
      ghost var mid := AsLocal();
      ghost var outcome;
      r, outcome := IngestOne(b, c, strays, overflows);
      ExecSnoc(ledger, id, l, before, mid, Mine(AIngestChunk(outcome, strays)));
      steps := before + [Mine(AIngestChunk(outcome, strays))];
    }

    /** Ingest one chunk and record the rotation it made, if any. */
    method ScanOne(b: Block, c: Chunk, strays: nat -> ViewKey, script: ChunkScript, ghost ledger: seq<Block>,
                   ghost l: Local, ghost before: seq<LocalStep>)
      returns (end: Ending, rows: seq<ETxOutRecord>, ghost steps: seq<LocalStep>)
      requires Valid() && pc.Scanning? && pc.pos < |b.outputs| <= b.cumulativeTxoCount
      requires c == ChunkAt(b, pc.block, pc.timestamp, pc.pos, cfg.maxTransactions)
      requires OverflowsAtDraws(script.overflows, enclave.ingressKey, c)
      requires pc.block == state.nextBlockIndex && state.ingestInvocationId.Some?
      requires pc.block < |ledger| && ledger[pc.block] == b
      requires Exec(ledger, id, l, before) == Some(AsLocal())
      modifies this, db, state, enclave
      ensures Valid() && Exec(ledger, id, l, steps) == Some(AsLocal())
      ensures state.nextBlockIndex == old(state.nextBlockIndex) && state.mode == old(state.mode)
      ensures !end.Fatal? && (end.IngestError? ==> pc.Ready? && |script.overflows| > MAX_CHUNK_RETRIES)
      ensures end.Killed? ==> pc.Rotating? && EndsWith(steps, RotationSteps(script.rotations))
      ensures end.Done? ==>
                pc == Scanning(old(pc).block, old(pc).rows + rows, old(pc).pos + |c.outputs|, old(pc).timestamp)
                            && state.ingestInvocationId.Some?
      ensures script.overflows == [] ==> end.Done? && steps == before + [Mine(AIngestChunk(Kept, strays))]
      ensures enclave.ingressKey == old(enclave.ingressKey)
    {
      var r;
      r, steps := IngestStep(b, c, strays, script.overflows, ledger, l, before);
      if r.None? {
        return IngestError, [], steps;
      }
      rows := r.value.0;
      if r.value.1.Some? {
        ghost var rotating := AsLocal();
        var ok, more := RotateRetrying(script.rotations, ledger);
        ExecTrans(ledger, id, l, steps, rotating, more);
        steps := steps + more;
        if !ok {
          assert steps[|steps| - |more|..] == more;
          return Killed, rows, steps;
        }
      }
      end := Done;
    }

    /** Hand the block to the enclave in chunks. Without overflows the rows are those of handing it over at
        once, whatever the chunk size; the running index starts at the block's first output and ends at
        its cumulative count. */
    method ScanChunks(b: Block, script: BlockScript, ghost ledger: seq<Block>)
      returns (end: Ending, rows: seq<ETxOutRecord>, globalTxoIndex: nat, ghost steps: seq<LocalStep>)
      requires Valid() && cfg.maxTransactions > 0 && ScriptOk(script, enclave.ingressKey, b, cfg.maxTransactions)
      requires state.nextBlockIndex < |ledger| && ledger[state.nextBlockIndex] == b
               && |b.outputs| <= b.cumulativeTxoCount
      requires pc == Scanning(state.nextBlockIndex, [], 0, script.timestamp) && state.ingestInvocationId.Some?
      modifies this, db, state, enclave
      ensures Valid() && Exec(ledger, id, old(AsLocal()), steps) == Some(AsLocal())
      ensures state.nextBlockIndex == old(state.nextBlockIndex) && state.mode == old(state.mode)
      ensures !end.Fatal? && EndsInside(script, b, end, pc, steps)
      ensures end.Done? ==> pc == Scanning(state.nextBlockIndex, rows, |b.outputs|, script.timestamp)
                            && state.ingestInvocationId.Some? && globalTxoIndex == b.cumulativeTxoCount
      ensures Quiet(script, b) ==>
                && end.Done?
                && AtOnce(b, state.nextBlockIndex, script.timestamp, script.strays, old(enclave.Value()), AsServer())
      ensures enclave.ingressKey == old(enclave.ingressKey)
    {
      ghost var l := AsLocal();
      var pos := 0;
      rows, globalTxoIndex, steps := [], b.cumulativeTxoCount - |b.outputs|, [];
      while pos < |b.outputs|
        invariant Midway(b, script, ledger, l, steps, pos, globalTxoIndex, rows)
        invariant state.nextBlockIndex == old(state.nextBlockIndex) && state.mode == old(state.mode)
        invariant enclave.ingressKey == old(enclave.ingressKey)
        decreases |b.outputs| - pos
      {
        end, rows, globalTxoIndex, pos, steps := ScanNext(b, script, ledger, l, steps, pos, globalTxoIndex, rows);
        if !end.Done? {
          return;
        }
      }
      if Quiet(script, b) {
        ChunksAreOneBlock(ledger, id, l, steps, AsLocal(), script.strays);
      }
      end := Done;
    }

    /** The first `pos` outputs of the block have been handed over. */
    ghost predicate Midway(b: Block, script: BlockScript, ledger: seq<Block>, l: Local, steps: seq<LocalStep>,
                           pos: nat, globalTxoIndex: nat, rows: seq<ETxOutRecord>)
      reads this, db, state, enclave
    {
      && Valid() && Exec(ledger, id, l, steps) == Some(AsLocal())
      && pos <= |b.outputs| <= b.cumulativeTxoCount && globalTxoIndex == b.cumulativeTxoCount - |b.outputs| + pos
      && pc == Scanning(state.nextBlockIndex, rows, pos, script.timestamp) && state.ingestInvocationId.Some?
      && (Quiet(script, b) ==> OnlyKept(steps, script.strays))
    }

    /** Hand over the next chunk. */
    method ScanNext(b: Block, script: BlockScript, ghost ledger: seq<Block>, ghost l: Local,
                    ghost before: seq<LocalStep>, pos: nat, globalTxoIndex: nat, rows: seq<ETxOutRecord>)
      returns (end: Ending, rows': seq<ETxOutRecord>, globalTxoIndex': nat, pos': nat, ghost steps: seq<LocalStep>)
      requires cfg.maxTransactions > 0 && ScriptOk(script, enclave.ingressKey, b, cfg.maxTransactions)
               && pos < |b.outputs|
      requires state.nextBlockIndex < |ledger| && ledger[state.nextBlockIndex] == b
      requires Midway(b, script, ledger, l, before, pos, globalTxoIndex, rows)
      modifies this, db, state, enclave
      ensures state.nextBlockIndex == old(state.nextBlockIndex) && state.mode == old(state.mode)
      ensures Valid() && Exec(ledger, id, l, steps) == Some(AsLocal())
      ensures !end.Fatal? && EndsInside(script, b, end, pc, steps) && (Quiet(script, b) ==> end.Done?)
      ensures end.Done? ==> pos < pos' && Midway(b, script, ledger, l, steps, pos', globalTxoIndex', rows')
      ensures enclave.ingressKey == old(enclave.ingressKey)
    {
      var chunk := Chunk(state.nextBlockIndex, globalTxoIndex, script.timestamp,
                         b.outputs[pos..Min(pos + cfg.maxTransactions, |b.outputs|)]);
      assert chunk == ChunkAt(b, state.nextBlockIndex, script.timestamp, pos, cfg.maxTransactions);
      var newRows;
      end, newRows, steps := ScanOne(b, chunk, script.strays, script.chunks(pos), ledger, l, before);
      rows', globalTxoIndex', pos' := rows + newRows, globalTxoIndex + |chunk.outputs|, pos + |chunk.outputs|;
    }

    /** Keep trying to commit the block. */
    method CommitRetrying(b: Block, rows: seq<ETxOutRecord>, timestamp: nat, calls: seq<Call>, ghost ledger: seq<Block>)
      returns (won: Option<bool>, ghost steps: seq<LocalStep>)
      requires Valid() && state.ingestInvocationId.Some?
               && pc == Scanning(state.nextBlockIndex, rows, |b.outputs|, timestamp)
      requires state.nextBlockIndex < |ledger| && ledger[state.nextBlockIndex] == b
               && |b.outputs| <= b.cumulativeTxoCount
      modifies this, db
      ensures Valid() && Exec(ledger, id, old(AsLocal()), steps) == Some(AsLocal())
      ensures won.Some? ==> pc == Committed(state.nextBlockIndex, won.value)
      ensures won.None? ==> pc == old(pc) && steps == CommitSteps(calls)
    {
      won, steps := None, [];
      var n := 0;
      while n < |calls| && won.None?
        invariant Valid() && Exec(ledger, id, old(AsLocal()), steps) == Some(AsLocal())
        invariant n <= |calls| && (won.None? ==> pc == old(pc) && steps == CommitSteps(calls[..n]))
        invariant won.Some? ==> pc == Committed(state.nextBlockIndex, won.value)
        decreases |calls| - n
      {
        ghost var mid := AsLocal();
        won := TryCommit(b, rows, timestamp, calls[n]);
        assert calls[..n + 1][..n] == calls[..n];
        ExecMine(ledger, id, old(AsLocal()), steps, mid, calls[n].others, AAddBlock(calls[n].out));
        steps := steps + [Others(calls[n].others), Mine(AAddBlock(calls[n].out))];
        n := n + 1;
      }
      assert calls[..|calls|] == calls;
    }

    /** Go idle: drop the invocation and forget the rngs. */
    method BackOff(call: Call, egress: EgressKey, ghost ledger: seq<Block>) returns (ghost steps: seq<LocalStep>)
      requires Valid() && pc.GoingIdle?
      modifies this, db, state, enclave
      ensures Valid() && Exec(ledger, id, old(AsLocal()), steps) == Some(AsLocal())
      ensures pc == Ready && state.ingestInvocationId.None? && state.mode == old(state.mode)
      ensures enclave.Value() == Enclave(old(enclave.ingressKey), egress, map[])
      ensures enclave.ingressKey == old(enclave.ingressKey)
      ensures cfg.stateFile ==> Described()
    {
      ghost var l := AsLocal();
      NewEgressKey(call, egress);
      assert Exec(ledger, id, l, []) == Some(l);
      ExecMine(ledger, id, l, [], l, call.others, ADropInvocation(call.out));
      steps := [] + [Others(call.others), Mine(ADropInvocation(call.out))];
      ExecSnoc(ledger, id, l, steps, DropInvocation(DbRun(l.db, call.others), l.server, call.out),
               Mine(ARekey(egress)));
      steps := steps + [Mine(ARekey(egress))];
    }

    /** Won: move on. Lost: another server published this block, so back off. */
    method Conclude(won: bool, call: Call, egress: EgressKey,
                    ghost ledger: seq<Block>) returns (ghost steps: seq<LocalStep>)
      requires Valid() && pc == Committed(state.nextBlockIndex, won) && state.mode.Active?
      modifies this, db, state, enclave
      ensures Valid() && pc == Ready && Exec(ledger, id, old(AsLocal()), steps) == Some(AsLocal())
      ensures won ==> state.Value() == old(state.Value()).(nextBlockIndex := old(state.nextBlockIndex) + 1)
      ensures !won ==> state.mode.Idle? && state.ingestInvocationId.None?
                       && enclave.Value() == Enclave(old(enclave.ingressKey), egress, map[])
      ensures enclave.ingressKey == old(enclave.ingressKey)
    {
      ghost var l := AsLocal();
      assert Exec(ledger, id, l, []) == Some(l);
      ExecSnoc(ledger, id, l, [], l, Mine(AFinish));
      steps := [] + [Mine(AFinish)];
      if won {
        state.IncrementNextBlockIndex();
        pc := Ready;
      } else {
        state.SetIdle();
        pc := GoingIdle;
        ghost var idle := AsLocal();
        var more := BackOff(call, egress, ledger);
        ExecTrans(ledger, id, l, steps, idle, more);
        steps := steps + more;
      }
    }

    /** Conclude the block and record where we are. */
    method Settle(won: bool, call: Call, egress: EgressKey,
                  ghost ledger: seq<Block>) returns (ghost steps: seq<LocalStep>)
      requires Valid() && pc == Committed(state.nextBlockIndex, won) && state.mode.Active?
      modifies this, db, state, enclave
      ensures Valid() && pc == Ready && Exec(ledger, id, old(AsLocal()), steps) == Some(AsLocal())
      ensures won ==> state.Value() == old(state.Value()).(nextBlockIndex := old(state.nextBlockIndex) + 1)
      ensures !won ==> state.mode.Idle? && state.ingestInvocationId.None? && enclave.Value().counters == map[]
      ensures enclave.ingressKey == old(enclave.ingressKey)
      ensures cfg.stateFile ==> Described()
    {
      steps := Conclude(won, call, egress, ledger);
      ghost var ready := AsLocal();
      WriteStateFile();
      ExecSnoc(ledger, id, old(AsLocal()), steps, ready, Mine(ASaveState));
      steps := steps + [Mine(ASaveState)];
    }

    /** Publish a report, take an invocation id, scan the block, commit it, and record where we are: a path
        of the protocol, in whatever way the calls end and whatever the others do in between. */
    method ProcessNextBlock(b: Block, script: BlockScript, ghost ledger: seq<Block>)
      returns (end: Ending, ghost steps: seq<LocalStep>)
      requires Valid() && cfg.maxTransactions > 0 && ScriptOk(script, enclave.ingressKey, b, cfg.maxTransactions)
      requires state.nextBlockIndex < |ledger| && ledger[state.nextBlockIndex] == b
               && |b.outputs| <= b.cumulativeTxoCount
      requires pc.Ready? && state.mode.Active?
      modifies this, db, state, enclave
      ensures Valid()
      ensures !end.Fatal? ==> Exec(ledger, id, old(AsLocal()), steps) == Some(AsLocal())
      ensures end.Fatal? ==> Exec(ledger, id, old(AsLocal()), steps) == Some(Local(db.Value(), Crashed(AsServer())))
      ensures end.Done? ==> pc.Ready? && (state.mode.Idle? || state.nextBlockIndex == old(state.nextBlockIndex) + 1)
      ensures end.Done? && state.mode.Idle? ==> state.ingestInvocationId.None? && enclave.Value().counters == map[]
      ensures EndsRightly(script, b, end, pc, steps)
      ensures [Others(script.report.others), Mine(ABeginBlock(script.report.out))] <= steps
      ensures end.Fatal? ==> old(state.ingestInvocationId).None?
      ensures enclave.ingressKey == old(enclave.ingressKey)
      ensures end.Done? && cfg.stateFile ==> Described()
    {
      ghost var l := AsLocal();
      assert Exec(ledger, id, l, []) == Some(l);
      ExecMine(ledger, id, l, [], l, script.report.others, ABeginBlock(script.report.out));
      steps := [] + [Others(script.report.others), Mine(ABeginBlock(script.report.out))];
      var expired := StartBlock(script.report);
      if expired {
        ghost var idle := AsLocal();
        var more := BackOff(script.drop, script.egress, ledger);
        ExecTrans(ledger, id, l, steps, idle, more);
        return Done, steps + more;
      }
      ghost var reported := AsLocal();
      ExecMine(ledger, id, l, steps, reported, script.invocation.others,
               ATakeInvocation(script.invocation.out, script.timestamp));
      steps := steps + [Others(script.invocation.others),
                        Mine(ATakeInvocation(script.invocation.out, script.timestamp))];
      var ok := ObtainInvocation(script.invocation, script.timestamp);
      if !ok {
        return Fatal, steps;
      }
      end, steps := ScanAndCommit(b, script, ledger, l, steps);
    }

    /** The part of process_next_block after the invocation id is known; `steps` led here from `l`. */
    method ScanAndCommit(b: Block, script: BlockScript, ghost ledger: seq<Block>, ghost l: Local,
                         ghost before: seq<LocalStep>)
      returns (end: Ending, ghost steps: seq<LocalStep>)
      requires Valid() && cfg.maxTransactions > 0 && ScriptOk(script, enclave.ingressKey, b, cfg.maxTransactions)
      requires state.nextBlockIndex < |ledger| && ledger[state.nextBlockIndex] == b
               && |b.outputs| <= b.cumulativeTxoCount
      requires pc == Scanning(state.nextBlockIndex, [], 0, script.timestamp) && state.ingestInvocationId.Some?
               && state.mode.Active?
      requires Exec(ledger, id, l, before) == Some(AsLocal())
      modifies this, db, state, enclave
      ensures Valid() && !end.Fatal? && Exec(ledger, id, l, steps) == Some(AsLocal())
      ensures end.Done? ==> pc.Ready? && (state.mode.Idle? || state.nextBlockIndex == old(state.nextBlockIndex) + 1)
      ensures end.Done? && state.mode.Idle? ==> state.ingestInvocationId.None? && enclave.Value().counters == map[]
      ensures EndsRightly(script, b, end, pc, steps) && before <= steps
      ensures enclave.ingressKey == old(enclave.ingressKey)
      ensures end.Done? && cfg.stateFile ==> Described()
    {
      ghost var scanning := AsLocal();
      var rows, globalTxoIndex;
      ghost var more;
      end, rows, globalTxoIndex, more := ScanChunks(b, script, ledger);
      ExecTrans(ledger, id, l, before, scanning, more);
      steps := before + more;
      if !end.Done? {
        if end.Killed? {
          InVainLonger(script, b, before, more);
        }
        return;
      }
      ghost var scanned := AsLocal();
      var won;
      won, more := CommitRetrying(b, rows, script.timestamp, script.commits, ledger);
      ExecTrans(ledger, id, l, steps, scanned, more);
      EndsWithLonger(steps, more, more);
      steps := steps + more;
      if won.None? {
        end := Killed;
        return;
      }
      ghost var committed := AsLocal();
      more := Settle(won.value, script.drop, script.egress, ledger);
      ExecTrans(ledger, id, l, steps, committed, more);
      steps := steps + more;
    }

    // ---- activate -----------------------------------------------------------------------------------------

    /** Ask every peer but ourselves; all must answer that they are idle. */
    method CheckPeers(answers: ServerId -> PeerAnswers, ghost ledger: seq<Block>)
      returns (ok: bool, ghost steps: seq<LocalStep>)
      requires Valid() && pc == Activating({}, CheckingPeers)
      modifies this`pc
      ensures Valid() && Exec(ledger, id, old(AsLocal()), steps) == Some(AsLocal())
      ensures pc.Activating? && pc.phase == CheckingPeers
      ensures ok ==> state.peers - {id} <= pc.checked
      ensures ok <==> AllIdle(state.peers - {id}, answers)
    {
      ghost var l := AsLocal();
      steps := [];
      var others := state.peers - {id};
      var rest := others;
      while rest != {}
        invariant Valid() && Exec(ledger, id, l, steps) == Some(AsLocal())
        invariant pc.Activating? && pc.phase == CheckingPeers && rest <= others
        invariant forall p :: p in others ==> p in rest || (p in pc.checked && SaysIdle(answers(p)))
        decreases |rest|
      {
        var p :| p in rest;
        if !SaysIdle(answers(p)) {
          return false, steps;
        }
        ExecSnoc(ledger, id, l, steps, AsLocal(), PeerIdle(p));
        steps := steps + [PeerIdle(p)];
        pc := Activating(pc.checked + {p}, CheckingPeers);
        rest := rest - {p};
      }
      ok := true;
    }

    /** Make every peer but ourselves a backup of our key and peer list. */
    method ConfirmBackups(answers: ServerId -> PeerAnswers) returns (ok: bool)
      ensures ok <==> AllBackUp(state.peers - {id}, answers, enclave.ingressKey, state.peers)
    {
      var others := state.peers - {id};
      var rest := others;
      while rest != {}
        invariant rest <= others && AllBackUp(others - rest, answers, enclave.ingressKey, state.peers)
        decreases |rest|
      {
        var p :| p in rest;
        var a := answers(p);
        var r := ConfirmBackup(a.status, enclave.ingressKey, state.peers, true, a.setKey, a.setPeers);
        if r.Err? {
          return false;
        }
        rest := rest - {p};
      }
      assert others - rest == others;
      ok := true;
    }

    /** Look the key up, or start a new one after the last block anyone knows of. */
    method ChooseStart(script: ActivateScript, ledgerNumBlocks: nat, ghost ledger: seq<Block>)
      returns (start: Option<nat>, ghost steps: seq<LocalStep>)
      requires Valid() && pc.Activating? && pc.phase == CheckingPeers && state.peers - {id} <= pc.checked
      requires ledgerNumBlocks <= |ledger|
      modifies this`pc, db
      ensures Valid() && Exec(ledger, id, old(AsLocal()), steps) == Some(AsLocal())
      ensures start.Some? ==> pc.Activating? && pc.phase == Publishing(start.value)
      ensures start.None? ==> pc.Activating? || pc.Ready?
      ensures start.Some? <==> Answered(old(db.Value()), script, enclave.ingressKey)
      ensures start.Some? ==> Starts(old(db.Value()), script, enclave.ingressKey, ledgerNumBlocks, start.value)
                              && Inserted(old(db.Value()), script, enclave.ingressKey, start.value, db.keys)
    {
      ghost var l := AsLocal();
      assert Exec(ledger, id, l, []) == Some(l);
      ExecMine(ledger, id, l, [], l, script.status.others, AReadStatus);
      RunOthers(script.status.others);
      if !script.status.out.Acked? {
        ExecSnoc(ledger, id, l, [], l, Others(script.status.others));
        return None, [] + [Others(script.status.others)];
      }
      var key := enclave.ingressKey;
      steps := [] + [Others(script.status.others), Mine(AReadStatus)];
      pc := Activating(pc.checked, if key in db.keys then KeyKnown(db.keys[key].startBlock) else KeyUnknown);
      if key in db.keys {
        var startBlock := db.keys[key].startBlock;
        start, steps := StartFromKey(startBlock, script.last, ledger, l, steps);
      } else {
        start, steps := StartNewKey(script, ledgerNumBlocks, ledger, l, steps);
      }
    }

    method StartFromKey(startBlock: nat, call: Call, ghost ledger: seq<Block>, ghost l: Local,
                        ghost before: seq<LocalStep>)
      returns (start: Option<nat>, ghost steps: seq<LocalStep>)
      requires Valid() && pc.Activating? && pc.phase == KeyKnown(startBlock)
      requires Exec(ledger, id, l, before) == Some(AsLocal())
      modifies this`pc, db
      ensures Valid() && Exec(ledger, id, l, steps) == Some(AsLocal()) && pc.Activating?
      ensures start.Some? <==> call.out.Acked?
      ensures start.Some? ==> pc.phase == Publishing(start.value)
      ensures start.Some? ==>
                StartsAfterOwn(DbRun(old(db.Value()), call.others).blocks, enclave.ingressKey, startBlock, start.value)
    {
      ghost var mid := AsLocal();
      ExecMine(ledger, id, l, before, mid, call.others, AReadLast);
      RunOthers(call.others);
      if !call.out.Acked? {
        ExecSnoc(ledger, id, l, before, mid, Others(call.others));
        return None, before + [Others(call.others)];
      }
      var last := LastScanned(db.blocks, enclave.ingressKey);
      StartAfterOwn(db.blocks, enclave.ingressKey, startBlock);
      start := Some(if last.Some? then last.value + 1 else startBlock);
      pc := Activating(pc.checked, Publishing(start.value));
      steps := before + [Others(call.others), Mine(AReadLast)];
    }

    method StartNewKey(script: ActivateScript, ledgerNumBlocks: nat, ghost ledger: seq<Block>, ghost l: Local,
                       ghost before: seq<LocalStep>)
      returns (start: Option<nat>, ghost steps: seq<LocalStep>)
      requires Valid() && pc.Activating? && pc.phase == KeyUnknown && ledgerNumBlocks <= |ledger|
      requires Exec(ledger, id, l, before) == Some(AsLocal())
      modifies this`pc, db
      ensures Valid() && Exec(ledger, id, l, steps) == Some(AsLocal())
      ensures start.Some? ==> pc.Activating? && pc.phase == Publishing(start.value)
      ensures start.None? ==> pc.Activating? || pc.Ready?
      ensures start.Some? <==>
              script.highest.out.Acked? && script.insert.out.Acked?
              && enclave.ingressKey
                 !in DbRun(DbRun(old(db.Value()), script.highest.others), script.insert.others).keys
      ensures start.Some? ==>
                && StartsAfterAll(DbRun(old(db.Value()), script.highest.others).blocks, ledgerNumBlocks, start.value)
                && enclave.ingressKey in db.keys && db.keys[enclave.ingressKey].startBlock == start.value
    {
      ghost var mid := AsLocal();
      ExecMine(ledger, id, l, before, mid, script.highest.others, AReadHighest(ledgerNumBlocks));
      RunOthers(script.highest.others);
      if !script.highest.out.Acked? {
        ExecSnoc(ledger, id, l, before, mid, Others(script.highest.others));
        return None, before + [Others(script.highest.others)];
      }
      var high := HighestKnown(db.blocks);
      StartAfterAll(db.blocks, ledgerNumBlocks);
      var startBlock := Max(ledgerNumBlocks, if high.Some? then high.value + 1 else 0);
      pc := Activating(pc.checked, Inserting(startBlock));
      steps := before + [Others(script.highest.others), Mine(AReadHighest(ledgerNumBlocks))];
      var ok;
      ok, steps := InsertNewKey(startBlock, script.insert, ledger, l, steps);
      start := if ok then Some(startBlock) else None;
    }

    /** Insert our key; if another server has done so in between, give up. */
    method InsertNewKey(startBlock: nat, call: Call, ghost ledger: seq<Block>, ghost l: Local,
                        ghost before: seq<LocalStep>)
      returns (ok: bool, ghost steps: seq<LocalStep>)
      requires Valid() && pc.Activating? && pc.phase == Inserting(startBlock)
      requires Exec(ledger, id, l, before) == Some(AsLocal())
      modifies this`pc, db
      ensures Valid() && Exec(ledger, id, l, steps) == Some(AsLocal())
      ensures ok <==> call.out.Acked? && enclave.ingressKey !in DbRun(old(db.Value()), call.others).keys
      ensures ok ==> pc.Activating? && pc.phase == Publishing(startBlock)
      ensures ok ==> enclave.ingressKey in db.keys && db.keys[enclave.ingressKey].startBlock == startBlock
      ensures !ok ==> pc.Ready?
    {
      ghost var mid := AsLocal();
      ExecMine(ledger, id, l, before, mid, call.others, AInsertKey(call.out));
      steps := before + [Others(call.others), Mine(AInsertKey(call.out))];
      RunOthers(call.others);
      var inserted := false;
      if !call.out.Failed? {
        inserted := db.NewIngressKey(enclave.ingressKey, startBlock);
      }
      ok := call.out.Acked? && inserted;
      pc := if ok then Activating(pc.checked, Publishing(startBlock)) else Ready;
    }

    /** Publish our first report and go active, unless the key is retired with nothing left to scan. */
    method PublishAndActivate(start: nat, call: Call) returns (ok: bool)
      requires Valid() && pc.Activating? && pc.phase == Publishing(start) && state.mode.Idle?
      modifies this`pc, db, state
      ensures Valid() && AsLocal() == PublishActivate(DbRun(old(db.Value()), call.others), old(AsServer()), call.out)
      ensures pc.Ready? && (ok <==> state.mode.Active?) && state.nextBlockIndex == start
      ensures ok ==> call.out.Acked? && enclave.ingressKey in db.keys
      ensures ok ==> !NothingLeft(db.keys, enclave.ingressKey, start)
      ensures state.ingestInvocationId.None? ==>
                (ok <== call.out.Acked? && enclave.ingressKey in db.keys
                        && !NothingLeft(db.keys, enclave.ingressKey, start))
    {
      RunOthers(call.others);
      var _ := state.SetNextBlockIndex(start);
      var status := PublishReport(call.out);
      pc := Ready;
      if status.None? || (status.value.retired && start > status.value.pubkeyExpiry) {
        return false;
      }
      state.SetActive();
      ok := true;
    }

    /** Take the state lock, check the peers, choose where to start; on an error give up and unlock. */
    method PrepareActivation(script: ActivateScript, ledgerNumBlocks: nat, ghost ledger: seq<Block>)
      returns (start: Option<nat>, ghost steps: seq<LocalStep>)
      requires Valid() && pc.Ready? && state.mode.Idle? && ledgerNumBlocks <= |ledger|
      modifies this`pc, db
      ensures Valid() && Exec(ledger, id, old(AsLocal()), steps) == Some(AsLocal())
      ensures start.Some? ==> pc.Activating? && pc.phase == Publishing(start.value)
      ensures start.None? ==> pc.Ready?
      ensures start.Some? <==> AllBackUp(state.peers - {id}, script.peers, enclave.ingressKey, state.peers)
                               && Answered(old(db.Value()), script, enclave.ingressKey)
      ensures start.Some? ==> Starts(old(db.Value()), script, enclave.ingressKey, ledgerNumBlocks, start.value)
                              && Inserted(old(db.Value()), script, enclave.ingressKey, start.value, db.keys)
    {
      ghost var l := AsLocal();
      assert Exec(ledger, id, l, []) == Some(l);
      ExecSnoc(ledger, id, l, [], l, Mine(AActivate));
      steps := [] + [Mine(AActivate)];
      pc := Activating({}, CheckingPeers);
      ghost var mid := AsLocal();
      var ok, more := CheckPeers(script.peers, ledger);
      ExecTrans(ledger, id, l, steps, mid, more);
      steps := steps + more;
      if ok {
        ok := ConfirmBackups(script.peers);
      }
      if !ok {
        steps := Abandon(ledger, l, steps);
        return None, steps;
      }
      mid := AsLocal();
      start, more := ChooseStart(script, ledgerNumBlocks, ledger);
      ExecTrans(ledger, id, l, steps, mid, more);
      steps := steps + more;
      if start.None? {
        steps := Abandon(ledger, l, steps);
      }
    }

    /** Activation succeeds only after every peer said it was idle and an idle backup of our key and peer list;
        it is a path of the protocol however the calls end, and a failed one leaves the server idle. */
    method Activate(script: ActivateScript, ledgerNumBlocks: nat, ghost ledger: seq<Block>)
      returns (ok: bool, ghost steps: seq<LocalStep>)
      requires Valid() && pc.Ready? && ledgerNumBlocks <= |ledger|
      modifies this, db, state
      ensures Valid() && pc.Ready? && Exec(ledger, id, old(AsLocal()), steps) == Some(AsLocal())
      ensures ok <==> state.mode.Active?
      ensures old(state.mode).Active? ==> ok && AsLocal() == old(AsLocal())
      ensures ok && old(state.mode).Idle? ==>
                AllBackUp(old(state.peers) - {id}, script.peers, enclave.ingressKey, old(state.peers))
      ensures old(state.mode).Idle? && old(state.ingestInvocationId).None? ==>
                (ok <==> && AllBackUp(state.peers - {id}, script.peers, enclave.ingressKey, state.peers)
                         && Answered(old(db.Value()), script, enclave.ingressKey)
                         && script.report.out.Acked? && enclave.ingressKey in db.keys
                         && !NothingLeft(db.keys, enclave.ingressKey, state.nextBlockIndex))
      ensures ok && old(state.mode).Idle? ==>
                && Starts(old(db.Value()), script, enclave.ingressKey, ledgerNumBlocks, state.nextBlockIndex)
                && !NothingLeft(db.keys, enclave.ingressKey, state.nextBlockIndex)
                && (cfg.stateFile ==> Described())
    {
      if state.mode == Active {
        return true, [];
      }
      var start;
      start, steps := PrepareActivation(script, ledgerNumBlocks, ledger);
      if start.None? {
        return false, steps;
      }
      ghost var mid, l := AsLocal(), old(AsLocal());
      ghost var more;
      ok, more := GoActive(start.value, script.report, ledger);
      ExecTrans(ledger, id, l, steps, mid, more);
      steps := steps + more;
    }

    method GoActive(start: nat, call: Call, ghost ledger: seq<Block>) returns (ok: bool, ghost steps: seq<LocalStep>)
      requires Valid() && pc.Activating? && pc.phase == Publishing(start) && state.mode.Idle?
      modifies this, db, state
      ensures Valid() && pc.Ready? && Exec(ledger, id, old(AsLocal()), steps) == Some(AsLocal())
      ensures ok <==> state.mode.Active?
      ensures state.nextBlockIndex == start && state.peers == old(state.peers)
      ensures ok ==> call.out.Acked? && enclave.ingressKey in db.keys
      ensures ok ==> !NothingLeft(db.keys, enclave.ingressKey, start) && (cfg.stateFile ==> Described())
      ensures old(state.ingestInvocationId).None? ==>
                (ok <== call.out.Acked? && enclave.ingressKey in db.keys
                        && !NothingLeft(db.keys, enclave.ingressKey, start))
    {
      ghost var l := AsLocal();
      assert Exec(ledger, id, l, []) == Some(l);
      ExecMine(ledger, id, l, [], l, call.others, APublishActivate(call.out));
      steps := [] + [Others(call.others), Mine(APublishActivate(call.out))];
      ok := PublishAndActivate(start, call);
      if ok {
        ghost var active := AsLocal();
        WriteStateFile();
        ExecSnoc(ledger, id, l, steps, active, Mine(ASaveState));
        steps := steps + [Mine(ASaveState)];
      }
    }

    /** Return from activate with an error, releasing the state lock. */
    ghost method Abandon(ledger: seq<Block>, l: Local, before: seq<LocalStep>) returns (steps: seq<LocalStep>)
      requires Exec(ledger, id, l, before) == Some(AsLocal()) && (pc.Activating? || pc.Ready?)
      modifies this`pc
      ensures pc.Ready? && Exec(ledger, id, l, steps) == Some(AsLocal())
    {
      steps := before;
      if pc.Activating? {
        ExecSnoc(ledger, id, l, before, AsLocal(), Mine(AAbortActivate));
        steps := before + [Mine(AAbortActivate)];
        pc := Ready;
      }
    }

    // ---- new keys and the polling loop ---------------------------------------------------------------------

    /** Replace both keys of an idle server; nothing of the old ones is left in the enclave or the state file. */
    method NewKeys(call: Call, ingress: IngressKey, egress: EgressKey, ghost ledger: seq<Block>)
      returns (ok: bool, ghost steps: seq<LocalStep>)
      requires Valid() && pc.Ready?
      modifies this, db, state, enclave
      ensures Valid() && (ok <==> old(state.mode).Idle?)
      ensures !ok ==> AsLocal() == old(AsLocal())
      ensures ok ==> enclave.Value() == Enclave(ingress, egress, map[])
                     && state.Value() == old(state.Value()).(iid := None)
      ensures ok && cfg.stateFile ==> Described()
      ensures ok && old(state.ingestInvocationId).None? ==> Exec(ledger, id, old(AsLocal()), steps) == Some(AsLocal())
    {
      steps := [];
      if state.mode != Idle {
        return false, [];
      }
      ghost var l := AsLocal();
      if l.server.st.iid.None? {
        assert Exec(ledger, id, l, []) == Some(l);
        ExecMine(ledger, id, l, [], l, call.others, ANewKeys(ingress, egress));
        steps := [] + [Others(call.others), Mine(ANewKeys(ingress, egress))];
      }
      DecommissionInvocation(call);
      enclave.NewKeys(ingress, egress);
      mine, pc := {egress}, Ready;
      lastSealedKey := None;
      WriteStateFile();
      ok := true;
    }

    /** One round of the worker: if we are active and the next block is there, wait for its timestamp and process
        it. */
    method PollOnce(round: Round, ledger: seq<Block>) returns (end: Ending, ghost steps: seq<LocalStep>)
      requires Valid() && pc.Ready? && cfg.maxTransactions > 0 && round.height <= |ledger|
      requires forall b :: 0 <= b < |ledger| ==>
                 && |ledger[b].outputs| <= ledger[b].cumulativeTxoCount
                 && ScriptOk(round.script, enclave.ingressKey, ledger[b], cfg.maxTransactions)
      modifies this, db, state, enclave
      ensures Valid() && enclave.ingressKey == old(enclave.ingressKey) && (end.Done? || end.IngestError? ==> pc.Ready?)
      ensures !end.Fatal? ==> Exec(ledger, id, old(AsLocal()), steps) == Some(AsLocal())
      ensures end.Fatal? ==> Exec(ledger, id, old(AsLocal()), steps) == Some(Local(db.Value(), Crashed(AsServer())))
      ensures Turn(round, old(AsServer()), steps)
      ensures HasWork(round, old(AsServer())) && !Timestamped(round) <==> end.Killed? && steps == []
    {
      var next := state.nextBlockIndex;
      if state.mode != Active || next >= round.height {
        assert Exec(ledger, id, AsLocal(), []) == Some(AsLocal());
        return Done, [];
      }
      var timestamp := GetWatcherTimestamp(round.watcher);
      if timestamp.None? {
        assert Exec(ledger, id, AsLocal(), []) == Some(AsLocal());
        return Killed, [];
      }
      var script := round.script.(timestamp := timestamp.value);
      assert ScriptOk(round.script, enclave.ingressKey, ledger[next], cfg.maxTransactions);
      end, steps := ProcessNextBlock(ledger[next], script, ledger);
    }

    /** The worker's polling loop. Any number of rounds is a path of the protocol, round by round; it ends early
        only if the process dies, or never gets a timestamp. */
    method Poll(rounds: seq<Round>, ledger: seq<Block>)
      returns (end: Ending, ghost steps: seq<LocalStep>, ghost turns: seq<(Local, seq<LocalStep>)>)
      requires Valid() && pc.Ready? && cfg.maxTransactions > 0
      requires forall b :: 0 <= b < |ledger| ==> |ledger[b].outputs| <= ledger[b].cumulativeTxoCount
      requires forall r :: 0 <= r < |rounds| ==>
                 rounds[r].height <= |ledger| && forall b :: 0 <= b < |ledger| ==>
                   ScriptOk(rounds[r].script, enclave.ingressKey, ledger[b], cfg.maxTransactions)
      modifies this, db, state, enclave
      ensures Valid()
      ensures !end.Fatal? ==> Exec(ledger, id, old(AsLocal()), steps) == Some(AsLocal())
      ensures end.Fatal? ==> Exec(ledger, id, old(AsLocal()), steps) == Some(Local(db.Value(), Crashed(AsServer())))
      ensures end.Done? ==> pc.Ready? && |turns| == |rounds|
      ensures steps == Joined(turns) && TurnsTaken(rounds, ledger, id, old(AsLocal()), turns)
    {
      steps, turns := [], [];
      for r := 0 to |rounds|
        invariant Valid() && pc.Ready? && Exec(ledger, id, old(AsLocal()), steps) == Some(AsLocal())
        invariant enclave.ingressKey == old(enclave.ingressKey) && |turns| == r
        invariant steps == Joined(turns) && TurnsTaken(rounds, ledger, id, old(AsLocal()), turns)
      {
        ghost var mid, l := AsLocal(), old(AsLocal());
        assert forall b :: 0 <= b < |ledger| ==>
            ScriptOk(rounds[r].script, enclave.ingressKey, ledger[b], cfg.maxTransactions);
        var ended, more := PollOnce(rounds[r], ledger);
        ExecTrans(ledger, id, l, steps, mid, more);
        OneMoreTurn(rounds, ledger, id, l, turns, (mid, more));
        steps, turns := steps + more, turns + [(mid, more)];
        if ended.Fatal? || ended.Killed? {
          return ended, steps, turns;
        }
      }
      end := Done;
    }

    // ---- start-up -------------------------------------------------------------------------------------------

    /** Restore the state a file describes. A file saying Active is followed only if it is of the key in our
        enclave and every peer it names is idle; whatever fails, nothing has changed. The invocation id is
        not restored. */
    method RestoreStateFromSummary(data: Summary, answers: ServerId -> PeerAnswers) returns (ok: bool)
      modifies state
      ensures ok <==>
                && old(state.mode).Idle? && id in data.peers
                && (data.mode.Active? ==> data.ingress == enclave.ingressKey && AllIdle(data.peers - {id}, answers))
      ensures state.Value() == if ok then StateFrom(data).(iid := old(state.ingestInvocationId)) else old(state.Value())
    {
      if state.mode != Idle {
        return false;
      }
      if data.mode == Active {
        if data.ingress != enclave.ingressKey {
          return false;
        }
        var idle := PeersAreIdle(data.peers - {id}, answers, data.ingress, data.peers);
        if !idle {
          return false;
        }
      }
      if id !in data.peers {
        return false;
      }
      state.SetPeers(data.peers);
      var window := state.SetPubkeyExpiryWindow(data.window);
      var next := state.SetNextBlockIndex(data.nextBlockIndex);
      assert window.Ok? && next.Ok?;
      if data.mode == Active {
        state.SetActive();
      }
      ok := true;
    }
  }

  /** The server is active and its next block is there. */
  predicate HasWork(round: Round, s: Server) {
    s.st.mode.Active? && s.st.nextBlockIndex < round.height
  }

  predicate Timestamped(round: Round) {
    exists i :: 0 <= i < |round.watcher| && Settled(round.watcher[i])
  }

  /** A round starts on the next block if there is one and its timestamp is there; otherwise it does nothing. */
  ghost predicate Turn(round: Round, s: Server, steps: seq<LocalStep>) {
    if HasWork(round, s) && Timestamped(round) then
      [Others(round.script.report.others), Mine(ABeginBlock(round.script.report.out))] <= steps
    else steps == []
  }

  function Joined(turns: seq<(Local, seq<LocalStep>)>): seq<LocalStep> {
    if |turns| == 0 then [] else Joined(turns[..|turns| - 1]) + turns[|turns| - 1].1
  }

  /** Each round in turn starts where the ones before it ended. */
  ghost predicate TurnsTaken(rounds: seq<Round>, ledger: seq<Block>, id: ServerId, l: Local,
                             turns: seq<(Local, seq<LocalStep>)>)
  {
    |turns| <= |rounds| && forall r :: 0 <= r < |turns| ==>
      Exec(ledger, id, l, Joined(turns[..r])) == Some(turns[r].0) && Turn(rounds[r], turns[r].0.server, turns[r].1)
  }

  lemma OneMoreTurn(rounds: seq<Round>, ledger: seq<Block>, id: ServerId, l: Local,
                    turns: seq<(Local, seq<LocalStep>)>, turn: (Local, seq<LocalStep>))
    requires TurnsTaken(rounds, ledger, id, l, turns) && |turns| < |rounds|
    requires Exec(ledger, id, l, Joined(turns)) == Some(turn.0) && Turn(rounds[|turns|], turn.0.server, turn.1)
    ensures TurnsTaken(rounds, ledger, id, l, turns + [turn]) && Joined(turns + [turn]) == Joined(turns) + turn.1
  {
    assert (turns + [turn])[..|turns|] == turns;
    assert forall r :: 0 <= r < |turns| ==> (turns + [turn])[..r] == turns[..r];
  }

  ghost predicate AllIdle(peers: set<ServerId>, answers: ServerId -> PeerAnswers) {
    forall p :: p in peers ==> SaysIdle(answers(p))
  }

  ghost predicate AllBackUp(peers: set<ServerId>, answers: ServerId -> PeerAnswers, key: IngressKey,
                            ourPeers: set<ServerId>)
  {
    forall p :: p in peers ==> BacksUp(answers(p), key, ourPeers)
  }

  // ---- timestamps -----------------------------------------------------------------------------------------------

  const U64_MAX: nat := TWO64 - 1

  /** The watcher will not change its mind about this. */
  predicate Settled(reply: WatcherReply) {
    reply.TimestampFound? || reply.BlockIndexOutOfBounds?
  }

  /** Ask the watcher until it has the block's timestamp or says that there is no such block; then the largest
      number stands for it. None if it never does. */
  method GetWatcherTimestamp(replies: seq<WatcherReply>) returns (timestamp: Option<nat>)
    ensures timestamp.None? <==> forall i :: 0 <= i < |replies| ==> !Settled(replies[i])
    ensures timestamp.Some? ==>
              exists i :: 0 <= i < |replies| && Settled(replies[i]) && (forall j :: 0 <= j < i ==> !Settled(replies[j]))
                          && timestamp.value == if replies[i].TimestampFound? then replies[i].timestamp
                                                else 0xffff_ffff_ffff_ffff
  {
    for n := 0 to |replies|
      invariant forall j :: 0 <= j < n ==> !Settled(replies[j])
    {
      match replies[n] {
        case TimestampFound(ts) => return Some(ts);
        case BlockIndexOutOfBounds => return Some(U64_MAX);
        case _ =>
      }
    }
    timestamp := None;
  }

  // ---- backups ------------------------------------------------------------------------------------------------

  datatype BackupError = Connection | AnotherActivePeer | FailedRemoteKeyBackup | FailedRemoteSetPeers

  /** Check that a peer is an idle backup of our key and peer list, and make it one if asked to.
      `setKey` and `setPeers` are its answers to being sent our key and our peer list. */
  method ConfirmBackup(status: Option<PeerStatus>, ourKey: IngressKey, ourPeers: set<ServerId>, updateIfWrong: bool,
                       setKey: Option<PeerStatus>, setPeers: Option<PeerStatus>)
    returns (r: Result<(), BackupError>)
    ensures updateIfWrong ==> (r.Ok? <==> BacksUp(PeerAnswers(status, setKey, setPeers), ourKey, ourPeers))
    ensures !updateIfWrong ==> (r.Ok? <==> SaysIdle(PeerAnswers(status, setKey, setPeers)))
    ensures r == Err(AnotherActivePeer) <==> status.Some? && status.value.mode.Active?
    ensures r == Err(FailedRemoteKeyBackup) ==>
              status.Some? && status.value.ingress != ourKey && setKey.Some? && setKey.value.ingress != ourKey
    ensures r == Err(FailedRemoteSetPeers) ==>
              status.Some? && status.value.peers != ourPeers && setPeers.Some? && setPeers.value.peers != ourPeers
    ensures r == Err(Connection) ==>
              status.None? || (status.value.ingress != ourKey && setKey.None?)
              || (status.value.peers != ourPeers && setPeers.None?)
  {
    if status.None? {
      return Err(Connection);
    }
    if status.value.mode == Active {
      return Err(AnotherActivePeer);
    }
    if status.value.ingress != ourKey && updateIfWrong {
      if setKey.None? {
        return Err(Connection);
      }
      if setKey.value.ingress != ourKey {
        return Err(FailedRemoteKeyBackup);
      }
    }
    if status.value.peers != ourPeers && updateIfWrong {
      if setPeers.None? {
        return Err(Connection);
      }
      if setPeers.value.peers != ourPeers {
        return Err(FailedRemoteSetPeers);
      }
    }
    r := Ok(());
  }

  /** Check the peers without updating them: then their keys and peer lists do not matter. */
  method PeersAreIdle(peers: set<ServerId>, answers: ServerId -> PeerAnswers, ourKey: IngressKey,
                      ourPeers: set<ServerId>)
    returns (ok: bool)
    ensures ok <==> AllIdle(peers, answers)
  {
    var rest := peers;
    while rest != {}
      invariant rest <= peers && AllIdle(peers - rest, answers)
      decreases |rest|
    {
      var p :| p in rest;
      var r := ConfirmBackup(answers(p).status, ourKey, ourPeers, false, None, None);
      if r.Err? {
        return false;
      }
      rest := rest - {p};
    }
    assert peers - rest == peers;
    ok := true;
  }
}
