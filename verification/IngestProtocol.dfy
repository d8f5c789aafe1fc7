/**
 * The ingest protocol (fog/ingest/server/src/controller.rs driven by worker.rs): any number of
 * servers race through one recovery database. Each database transaction, each enclave call and
 * each hold of the state lock up to the next of these is one atomic step of one server; steps of
 * different servers interleave freely, and a server may crash between any two of its steps.
 *
 * `activate` and the two key-import calls are taken as serialized on one server, as their callers
 * are expected to do; everything else may interleave.
 */
module IngestProtocol {
  import opened Prelude
  import opened FogView
  import opened RecoveryTables
  import opened IngestEnclave
  import opened ControllerState

  datatype Block = Block(cumulativeTxoCount: nat, outputs: seq<TxOut>)

  /** maxTransactions is the chunk size; stateFile says whether a state file is configured. */
  datatype Config = Config(peers: set<ServerId>, window: nat, maxTransactions: nat, reportId: ReportId, stateFile: bool)

  datatype Summary = Summary(mode: IngestMode, nextBlockIndex: nat, window: nat, peers: set<ServerId>,
                             ingress: IngressKey)
  datatype StateFile = StateFile(summary: Summary, sealedKey: IngressKey)

  datatype ActivatePhase =
    | CheckingPeers
    | KeyKnown(startBlock: nat)
    | KeyUnknown
    | Inserting(startBlock: nat)
    | Publishing(startBlock: nat)

  /** Where a server is inside `activate`, `process_next_block`, or start-up. */
  datatype Pc =
    | Ready
    | Activating(checked: set<ServerId>, phase: ActivatePhase)
    | Reported
    | Scanning(block: nat, rows: seq<ETxOutRecord>, pos: nat, timestamp: nat)
    | Rotating(block: nat, rows: seq<ETxOutRecord>, pos: nat, timestamp: nat, egress: EgressKey)
    | Committed(block: nat, won: bool)
    | GoingIdle
    | Rekeying
    | Restoring(checked: set<ServerId>)

  datatype Run = Down | Booting | Up

  /** `mine` is history: the egress keys this server has drawn with since its last fresh start. */
  datatype Server = Server(
    cfg: Config, run: Run, st: StateValue, enc: Enclave, pc: Pc, file: Option<StateFile>, mine: set<EgressKey>)

  datatype World = World(ledger: seq<Block>, db: Db, servers: seq<Server>, issued: set<EgressKey>)

  /** How a transaction ends for its caller: acknowledged, committed but reported as an error, or not committed. */
  datatype Outcome = Acked | LostAck | Failed

  function Commit(db: Db, op: DbOp, out: Outcome): Db {
    if out.Failed? then db else DbApply(db, op)
  }

  datatype Local = Local(db: Db, server: Server)

  /** The state lock is held across these steps, so no RPC of the server is answered. */
  predicate Locked(pc: Pc) {
    pc.Activating? || pc.Reported? || pc.GoingIdle? || pc.Rekeying?
  }

  predicate Serving(s: Server) {
    s.run.Up? && !Locked(s.pc)
  }

  function InitialState(cfg: Config): StateValue {
    StateValue(Idle, 0, cfg.window, None, cfg.peers)
  }

  // ---- state file -----------------------------------------------------------------------------

  function SummaryOf(s: Server): Summary {
    Summary(s.st.mode, s.st.nextBlockIndex, s.st.pubkeyExpiryWindow, s.st.peers, s.enc.ingress)
  }

  function WriteStateFile(s: Server): Server {
    if s.cfg.stateFile then s.(file := Some(StateFile(SummaryOf(s), s.enc.ingress))) else s
  }

  // ---- activate -------------------------------------------------------------------------------

  function ReportOp(s: Server): DbOp {
    OpSetReport(s.enc.ingress, s.cfg.reportId, s.st.iid, PublishedExpiry(s.st))
  }

  function ReadStatus(db: Db, s: Server): Server
    requires s.pc.Activating?
  {
    s.(pc := Activating(s.pc.checked,
                        if s.enc.ingress in db.keys then KeyKnown(db.keys[s.enc.ingress].startBlock) else KeyUnknown))
  }

  function ReadLast(db: Db, s: Server): Server
    requires s.pc.Activating? && s.pc.phase.KeyKnown?
  {
    var last := LastScanned(db.blocks, s.enc.ingress);
    s.(pc := Activating(s.pc.checked, Publishing(if last.Some? then last.value + 1 else s.pc.phase.startBlock)))
  }

  function ReadHighest(db: Db, s: Server, ledgerNumBlocks: nat): Server
    requires s.pc.Activating?
  {
    var high := HighestKnown(db.blocks);
    var start := Max(ledgerNumBlocks, if high.Some? then high.value + 1 else 0);
    s.(pc := Activating(s.pc.checked, Inserting(start)))
  }

  function InsertKey(db: Db, s: Server, out: Outcome): Local
    requires s.pc.Activating? && s.pc.phase.Inserting?
  {
    var start := s.pc.phase.startBlock;
    var r := NewIngressKey(db, s.enc.ingress, start);
    Local(Commit(db, OpNewKey(s.enc.ingress, start), out),
          s.(pc := if out.Acked? && r.1 then Activating(s.pc.checked, Publishing(start)) else Ready))
  }

  /** The status set_report returned to the caller, if it returned one. */
  function Reply(db: Db, op: DbOp, out: Outcome): Option<KeyStatusReply>
    requires op.OpSetReport?
  {
    var r := SetReport(db, op.key, op.reportId, op.publisher, op.expiry);
    if out.Acked? && r.Ok? then Some(KeyStatusReply(r.value.1.retired, r.value.1.pubkeyExpiry)) else None
  }

  datatype KeyStatusReply = KeyStatusReply(retired: bool, pubkeyExpiry: nat)

  /** Set the next block, publish, and go active unless the key is retired with nothing left to scan. */
  function PublishActivate(db: Db, s: Server, out: Outcome): Local
    requires s.pc.Activating? && s.pc.phase.Publishing?
  {
    var start := s.pc.phase.startBlock;
    var s1 := s.(st := s.st.(nextBlockIndex := start));
    var reply := Reply(db, ReportOp(s1), out);
    var refused := reply.None? || (reply.value.retired && start > reply.value.pubkeyExpiry);
    Local(Commit(db, ReportOp(s1), out),
          s1.(pc := Ready, st := if refused then s1.st else s1.st.(mode := Active)))
  }

  // ---- process_next_block ------------------------------------------------------------------------

  /** Publish a report and go idle if the key is retired and this block is past its expiry. */
  function BeginBlock(db: Db, s: Server, out: Outcome): Local {
    var reply := Reply(db, ReportOp(s), out);
    var done := reply.Some? && reply.value.retired && s.st.nextBlockIndex > reply.value.pubkeyExpiry;
    Local(Commit(db, ReportOp(s), out),
          if done then s.(st := s.st.(mode := Idle), pc := GoingIdle) else s.(pc := Reported))
  }

  function Crashed(s: Server): Server {
    s.(run := Down, st := InitialState(s.cfg), pc := Ready, mine := {})
  }

  /** Use the invocation id we hold, or record a new one; failing to record one is fatal. */
  function TakeInvocation(db: Db, s: Server, out: Outcome, timestamp: nat): Local {
    var start := Scanning(s.st.nextBlockIndex, [], 0, timestamp);
    if s.st.iid.Some? then Local(db, s.(pc := start))
    else
      var r := NewInvocation(db, None, s.enc.ingress, s.enc.egress, s.st.nextBlockIndex);
      var op := OpNewInvocation(None, s.enc.ingress, s.enc.egress, s.st.nextBlockIndex);
      if out.Acked? && r.Ok? then
        Local(DbApply(db, op), s.(pc := start, st := s.st.(iid := Some(r.value.1))))
      else Local(Commit(db, op, out), Crashed(s))
  }

  datatype EnclaveOutcome = Kept | Rotated(egress: EgressKey) | IngestFailed(after: Enclave)

  /** The chunk of the block that starts at output `pos`. */
  function ChunkAt(b: Block, block: nat, timestamp: nat, pos: nat, size: nat): Chunk
    requires |b.outputs| <= b.cumulativeTxoCount && pos <= |b.outputs|
  {
    Chunk(block, b.cumulativeTxoCount - |b.outputs| + pos, timestamp,
          b.outputs[pos..Min(pos + size, |b.outputs|)])
  }

  function IngestChunk(b: Block, s: Server, outcome: EnclaveOutcome, strays: nat -> ViewKey): Server
    requires s.pc.Scanning? && |b.outputs| <= b.cumulativeTxoCount && s.pc.pos <= |b.outputs|
  {
    var c := ChunkAt(b, s.pc.block, s.pc.timestamp, s.pc.pos, s.cfg.maxTransactions);
    var pos := s.pc.pos + |c.outputs|;
    match outcome
    case Kept =>
      var r := Absorb(s.enc, c, strays);
      s.(enc := r.enclave, pc := Scanning(s.pc.block, s.pc.rows + r.rows, pos, s.pc.timestamp))
    case Rotated(egress) =>
      var r := Absorb(Enclave(s.enc.ingress, egress, map[]), c, strays);
      s.(enc := r.enclave, mine := s.mine + {egress},
         pc := Rotating(s.pc.block, s.pc.rows + r.rows, pos, s.pc.timestamp, egress))
    case IngestFailed(after) =>
      s.(enc := after, mine := s.mine + {after.egress}, pc := Ready)
  }

  /** Replace our invocation by one for the new egress key; on an error the attempt is repeated. */
  function RecordRotation(db: Db, s: Server, out: Outcome): Local
    requires s.pc.Rotating?
  {
    var r := NewInvocation(db, s.st.iid, s.enc.ingress, s.pc.egress, s.pc.block);
    var op := OpNewInvocation(s.st.iid, s.enc.ingress, s.pc.egress, s.pc.block);
    if out.Acked? && r.Ok? then
      Local(DbApply(db, op),
            s.(st := s.st.(iid := Some(r.value.1)), pc := Scanning(s.pc.block, s.pc.rows, s.pc.pos, s.pc.timestamp)))
    else Local(Commit(db, op, out), s)
  }

  /** Commit the whole block; on an error the attempt is repeated. */
  function AddBlock(b: Block, db: Db, s: Server, out: Outcome): Local
    requires s.pc.Scanning? && s.st.iid.Some?
  {
    var op := OpAddBlock(s.st.iid.value, s.pc.block, b.cumulativeTxoCount, s.pc.timestamp, s.pc.rows);
    var r := AddBlockData(db, op.iid, op.block, op.cumulative, op.timestamp, op.records);
    Local(Commit(db, op, out),
          if out.Acked? && r.Ok? then s.(pc := Committed(s.pc.block, !r.value.1)) else s)
  }

  /** We won the race and move on, or lost it and back off. */
  function Finish(s: Server): Server
    requires s.pc.Committed?
  {
    if s.pc.won then s.(st := s.st.(nextBlockIndex := s.st.nextBlockIndex + 1), pc := Ready)
    else s.(st := s.st.(mode := Idle), pc := GoingIdle)
  }

  /** Drop our invocation id, telling the database if it listens. */
  function DropInvocation(db: Db, s: Server, out: Outcome): Local {
    Local(if s.st.iid.Some? then Commit(db, OpDecommission(s.st.iid.value), out) else db,
          s.(st := s.st.(iid := None), pc := Rekeying))
  }

  function Rekey(s: Server, egress: EgressKey): Server {
    WriteStateFile(s.(enc := Enclave(s.enc.ingress, egress, map[]), mine := {egress}, pc := Ready))
  }

  // ---- start-up ------------------------------------------------------------------------------------

  /** The controller state a state file restores; the invocation id is never restored. */
  function StateFrom(f: Summary): StateValue {
    StateValue(f.mode, f.nextBlockIndex, f.window, None, f.peers)
  }

  /** Start from the state file. A file saying Active must first pass the peer checks. */
  function StartUp(s: Server, ingress: IngressKey, egress: EgressKey): Server {
    var key := if s.file.Some? then s.file.value.sealedKey else ingress;
    var s1 := s.(enc := Enclave(key, egress, map[]), mine := {egress}, st := InitialState(s.cfg));
    if s.file.None? then WriteStateFile(s1.(run := Up, pc := Ready))
    else if s.file.value.summary.mode.Idle? then
      WriteStateFile(s1.(run := Up, pc := Ready, st := StateFrom(s.file.value.summary)))
    else s1.(run := Booting, pc := Restoring({}))
  }

  function FinishRestore(s: Server): Server
    requires s.file.Some?
  {
    WriteStateFile(s.(run := Up, pc := Ready, st := StateFrom(s.file.value.summary)))
  }

  // ---- steps ----------------------------------------------------------------------------------------

  datatype Action =
    | ASetWindow(window: nat)
    | ASetPeers(peers: set<ServerId>)
    | ANewKeys(ingress: IngressKey, egress: EgressKey)
    | ASetIngressKey(ingress: IngressKey)
    | ASaveState
    | AActivate
    | ACheckPeer(peer: ServerId)
    | AReadStatus
    | AReadLast
    | AReadHighest(ledgerNumBlocks: nat)
    | AInsertKey(out: Outcome)
    | APublishActivate(out: Outcome)
    | AAbortActivate
    | ABeginBlock(out: Outcome)
    | ATakeInvocation(out: Outcome, timestamp: nat)
    | AIngestChunk(outcome: EnclaveOutcome, strays: nat -> ViewKey)
    | ARecordRotation(out: Outcome)
    | AAddBlock(out: Outcome)
    | AFinish
    | ADropInvocation(out: Outcome)
    | ARekey(egress: EgressKey)
    | ACrash
    | AStartUp(ingress: IngressKey, egress: EgressKey)
    | AFinishRestore

  datatype Step =
    | LedgerGrows(block: Block)
    | Operator(op: DbOp)
    | By(id: ServerId, act: Action)

  /** Transactions issued from outside the servers' own loops: retire, unretire, lost keys, report removal. */
  predicate IsOperatorOp(op: DbOp) {
    op.OpRetire? || op.OpReportLost? || op.OpRemoveReport?
  }

  /** The egress key an action draws at random; the enclave never draws one twice. */
  function FreshEgress(s: Server, act: Action): Option<EgressKey> {
    match act
    case ANewKeys(_, egress) => Some(egress)
    case ARekey(egress) => Some(egress)
    case AStartUp(_, egress) => Some(egress)
    case AIngestChunk(Rotated(egress), _) => Some(egress)
    case AIngestChunk(IngestFailed(after), _) => if after.egress == s.enc.egress then None else Some(after.egress)
    case _ => None
  }

  predicate Scannable(ledger: seq<Block>, s: Server) {
    && s.pc.Scanning?
    && s.pc.block < |ledger|
    && |ledger[s.pc.block].outputs| <= ledger[s.pc.block].cumulativeTxoCount
    && s.pc.pos <= |ledger[s.pc.block].outputs|
  }

  /** When an action of a server can happen; `w.servers[i]` is that server. */
  predicate ActEnabled(w: World, i: ServerId, act: Action)
    requires i < |w.servers|
  {
    var s := w.servers[i];
    match act
    case ASetWindow(v) => Serving(s) && WindowAllowed(s.st, v)
    case ASetPeers(ps) => Serving(s) && i in ps
    case ANewKeys(_, _) => Serving(s) && s.st.mode.Idle?
    case ASetIngressKey(_) => Serving(s) && s.st.mode.Idle?
    case ASaveState => Serving(s)
    case AActivate => Serving(s) && s.st.mode.Idle?
    case ACheckPeer(j) =>
      && ((s.run.Up? && s.pc.Activating? && s.pc.phase.CheckingPeers?) || (s.run.Booting? && s.pc.Restoring?))
      && j < |w.servers| && j != i
      && Serving(w.servers[j]) && w.servers[j].st.mode.Idle?
    case AReadStatus => s.run.Up? && s.pc.Activating? && s.pc.phase.CheckingPeers? && s.st.peers - {i} <= s.pc.checked
    case AReadLast => s.run.Up? && s.pc.Activating? && s.pc.phase.KeyKnown?
    case AReadHighest(n) => s.run.Up? && s.pc.Activating? && s.pc.phase.KeyUnknown? && n <= |w.ledger|
    case AInsertKey(_) => s.run.Up? && s.pc.Activating? && s.pc.phase.Inserting?
    case APublishActivate(_) => s.run.Up? && s.pc.Activating? && s.pc.phase.Publishing?
    case AAbortActivate => s.run.Up? && s.pc.Activating?
    case ABeginBlock(_) => s.run.Up? && s.pc.Ready? && s.st.mode.Active? && s.st.nextBlockIndex < |w.ledger|
    case ATakeInvocation(_, _) => s.run.Up? && s.pc.Reported?
    case AIngestChunk(outcome, _) =>
      && s.run.Up? && Scannable(w.ledger, s) && s.pc.pos < |w.ledger[s.pc.block].outputs|
      && (outcome.IngestFailed? ==> outcome.after.ingress == s.enc.ingress)
    case ARecordRotation(_) => s.run.Up? && s.pc.Rotating?
    case AAddBlock(_) =>
      s.run.Up? && Scannable(w.ledger, s) && s.pc.pos == |w.ledger[s.pc.block].outputs| && s.st.iid.Some?
    case AFinish => s.run.Up? && s.pc.Committed?
    case ADropInvocation(_) => s.run.Up? && s.pc.GoingIdle?
    case ARekey(_) => s.run.Up? && s.pc.Rekeying?
    case ACrash => !s.run.Down?
    case AStartUp(_, _) => s.run.Down? && (s.file.Some? ==> i in s.file.value.summary.peers)
    case AFinishRestore =>
      s.run.Booting? && s.pc.Restoring? && s.file.Some? && s.file.value.summary.peers - {i} <= s.pc.checked
  }

  function Act(w: World, i: ServerId, act: Action): Local
    requires i < |w.servers| && ActEnabled(w, i, act)
  {
    var s, db := w.servers[i], w.db;
    match act
    case ASetWindow(v) => Local(db, s.(st := s.st.(pubkeyExpiryWindow := v)))
    case ASetPeers(ps) => Local(db, s.(st := s.st.(peers := ps)))
    case ANewKeys(ingress, egress) =>
      Local(db, WriteStateFile(s.(enc := Enclave(ingress, egress, map[]), mine := {egress}, st := s.st.(iid := None))))
    case ASetIngressKey(k) => Local(db, s.(enc := s.enc.(ingress := k)))
    case ASaveState => Local(db, WriteStateFile(s))
    case AActivate => Local(db, s.(pc := Activating({}, CheckingPeers)))
    case ACheckPeer(j) =>
      Local(db, s.(pc := if s.pc.Restoring? then Restoring(s.pc.checked + {j})
                         else Activating(s.pc.checked + {j}, CheckingPeers)))
    case AReadStatus => Local(db, ReadStatus(db, s))
    case AReadLast => Local(db, ReadLast(db, s))
    case AReadHighest(n) => Local(db, ReadHighest(db, s, n))
    case AInsertKey(out) => InsertKey(db, s, out)
    case APublishActivate(out) => PublishActivate(db, s, out)
    case AAbortActivate => Local(db, s.(pc := Ready))
    case ABeginBlock(out) => BeginBlock(db, s, out)
    case ATakeInvocation(out, timestamp) => TakeInvocation(db, s, out, timestamp)
    case AIngestChunk(outcome, strays) => Local(db, IngestChunk(w.ledger[s.pc.block], s, outcome, strays))
    case ARecordRotation(out) => RecordRotation(db, s, out)
    case AAddBlock(out) => AddBlock(w.ledger[s.pc.block], db, s, out)
    case AFinish => Local(db, Finish(s))
    case ADropInvocation(out) => DropInvocation(db, s, out)
    case ARekey(egress) => Local(db, Rekey(s, egress))
    case ACrash => Local(db, Crashed(s))
    case AStartUp(ingress, egress) => Local(db, StartUp(s, ingress, egress))
    case AFinishRestore => Local(db, FinishRestore(s))
  }

  /** A failed ingest that leaves the egress key alone leaves no counter behind where it was. */
  predicate NeverDrawsAgain(s: Server, act: Action) {
    act.AIngestChunk? && act.outcome.IngestFailed? && act.outcome.after.egress == s.enc.egress ==>
      forall view :: view in s.enc.counters ==> s.enc.counters[view] <= Drawn(act.outcome.after, view)
  }

  predicate Enabled(w: World, step: Step) {
    match step
    case LedgerGrows(b) => |b.outputs| <= b.cumulativeTxoCount
    case Operator(op) => IsOperatorOp(op)
    case By(i, act) =>
      && i < |w.servers|
      && ActEnabled(w, i, act)
      && (FreshEgress(w.servers[i], act).Some? ==> FreshEgress(w.servers[i], act).value !in w.issued)
      && NeverDrawsAgain(w.servers[i], act)
  }

  function Apply(w: World, step: Step): World
    requires Enabled(w, step)
  {
    match step
    case LedgerGrows(b) => w.(ledger := w.ledger + [b])
    case Operator(op) => w.(db := DbApply(w.db, op))
    case By(i, act) =>
      var r := Act(w, i, act);
      var drawn := FreshEgress(w.servers[i], act);
      w.(db := r.db, servers := w.servers[i := r.server],
         issued := if drawn.Some? then w.issued + {drawn.value} else w.issued)
  }

  /** A server that was never started: no state file yet. */
  predicate NeverStarted(s: Server) {
    s.run.Down? && s.st == InitialState(s.cfg) && s.pc.Ready? && s.file.None? && s.mine == {}
      && s.cfg.maxTransactions > 0
  }

  predicate Initial(w: World) {
    w.ledger == [] && w.db == EMPTY_DB && (forall i :: 0 <= i < |w.servers| ==> NeverStarted(w.servers[i]))
      && w.issued == {}
  }

  /** A run: worlds[0] is initial and each world follows from the one before by an enabled step. */
  datatype Trace = Trace(worlds: seq<World>, steps: seq<Step>)

  ghost predicate IsRun(t: Trace) {
    && |t.worlds| == |t.steps| + 1
    && Initial(t.worlds[0])
    && forall n :: 0 <= n < |t.steps| ==>
         Enabled(t.worlds[n], t.steps[n]) && t.worlds[n + 1] == Apply(t.worlds[n], t.steps[n])
  }
}
