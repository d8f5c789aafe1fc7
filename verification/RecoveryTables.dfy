/**
 * The tables of the recovery database and the effect of each of its transactions
 * (fog/sql_recovery_db/src/lib.rs, constraints from the migration that creates the tables).
 * A transaction is one function: it either commits or, when a constraint or a lookup fails,
 * leaves every table as it was.
 *
 * Keys, ids and block numbers are naturals. Search keys are symbolic: `Prf(secret, counter)` is
 * the output of the key-exchange rng, and two outputs are equal only for equal inputs.
 */
module RecoveryTables {
  import opened Prelude
  import opened Coverage
  import opened FogView

  type EgressKey = nat
  type InvocationId = nat
  type ReportId = string

  datatype Secret = SharedSecret(egress: EgressKey, view: ViewKey)
  datatype SearchKey = Prf(secret: Secret, counter: nat)
  /** The encryption, for the owner of `view`, of the TxOutRecord of `txo` with `meta`. */
  datatype Payload = CryptoBox(view: ViewKey, txo: TxOut, meta: FogTxOutMetadata)
  datatype ETxOutRecord = ETxOutRecord(searchKey: SearchKey, payload: Payload)

  datatype Invocation = Invocation(key: IngressKey, egress: EgressKey, startBlock: nat, decommissioned: bool)
  datatype BlockRow = BlockRow(
    iid: InvocationId, key: IngressKey, block: nat,
    cumulativeTxoCount: nat, timestamp: nat, records: seq<ETxOutRecord>)
  datatype UserEvent =
    | NewIngestInvocation(iid: InvocationId)
    | DecommissionIngestInvocation(iid: InvocationId)
    | MissingBlocks(range: BlockRange)
  datatype Report = Report(key: IngressKey, iid: Option<InvocationId>, pubkeyExpiry: nat)

  /** Rows of the append-only tables stand in commit order; an invocation's id is its position. */
  datatype Db = Db(
    keys: map<IngressKey, KeyStatus>,
    invocations: seq<Invocation>,
    blocks: seq<BlockRow>,
    events: seq<UserEvent>,
    reports: map<ReportId, Report>)

  const EMPTY_DB := Db(map[], [], [], [], map[])

  datatype DbError = MissingIngressKey | ConstraintViolation | NotFound

  // ---- queries ----------------------------------------------------------------------------

  predicate HasRow(blocks: seq<BlockRow>, key: IngressKey, block: nat) {
    exists i :: 0 <= i < |blocks| && blocks[i].key == key && blocks[i].block == block
  }

  function LargerOf(best: Option<nat>, block: nat): Option<nat> {
    if best.Some? && block <= best.value then best else Some(block)
  }

  /** SELECT MAX(block_number) ... WHERE ingress_public_key = key */
  function LastScanned(blocks: seq<BlockRow>, key: IngressKey): Option<nat> {
    if |blocks| == 0 then None
    else
      var row := blocks[|blocks| - 1];
      var rest := LastScanned(blocks[..|blocks| - 1], key);
      if row.key == key then LargerOf(rest, row.block) else rest
  }

  /** SELECT MAX(block_number) ... WHERE ingest_invocation_id = iid */
  function LastIngested(blocks: seq<BlockRow>, iid: InvocationId): Option<nat> {
    if |blocks| == 0 then None
    else
      var row := blocks[|blocks| - 1];
      var rest := LastIngested(blocks[..|blocks| - 1], iid);
      if row.iid == iid then LargerOf(rest, row.block) else rest
  }

  /** SELECT MAX(block_number) over the whole table */
  function HighestKnown(blocks: seq<BlockRow>): Option<nat> {
    if |blocks| == 0 then None
    else LargerOf(HighestKnown(blocks[..|blocks| - 1]), blocks[|blocks| - 1].block)
  }

  function RecordOf(db: Db, key: IngressKey): KeyRecord
    requires key in db.keys
  {
    KeyRecord(db.keys[key], LastScanned(db.blocks, key))
  }

  function RangeOf(db: Db, iid: InvocationId): IngestableRange
    requires iid < |db.invocations|
  {
    IngestableRange(db.invocations[iid].startBlock, db.invocations[iid].decommissioned, LastIngested(db.blocks, iid))
  }

  predicate InMissedRange(events: seq<UserEvent>, block: nat) {
    exists i :: 0 <= i < |events| && events[i].MissingBlocks? && events[i].range.Contains(block)
  }

  // ---- transactions -----------------------------------------------------------------------

  /** INSERT ... ON CONFLICT DO NOTHING; the flag says whether a row was inserted. */
  function NewIngressKey(db: Db, key: IngressKey, startBlock: nat): (Db, bool) {
    if key in db.keys then (db, false)
    else (db.(keys := db.keys[key := KeyStatus(startBlock, 0, false, false)]), true)
  }

  function RetireIngressKey(db: Db, key: IngressKey, setRetired: bool): Db {
    if key in db.keys then db.(keys := db.keys[key := db.keys[key].(retired := setRetired)]) else db
  }

  /** The event table admits one decommission event per invocation. */
  function Decommission(db: Db, iid: InvocationId): Result<Db, DbError> {
    if iid >= |db.invocations| || DecommissionIngestInvocation(iid) in db.events then Err(ConstraintViolation)
    else Ok(db.(
      invocations := db.invocations[iid := db.invocations[iid].(decommissioned := true)],
      events := db.events + [DecommissionIngestInvocation(iid)]))
  }

  function EgressKeys(invocations: seq<Invocation>): set<EgressKey> {
    set i | 0 <= i < |invocations| :: invocations[i].egress
  }

  function InsertInvocation(db: Db, key: IngressKey, egress: EgressKey, startBlock: nat): Result<(Db, InvocationId),
                            DbError> {
    if key !in db.keys || egress in EgressKeys(db.invocations) then Err(ConstraintViolation)
    else
      var iid := |db.invocations|;
      Ok((db.(invocations := db.invocations + [Invocation(key, egress, startBlock, false)],
              events := db.events + [NewIngestInvocation(iid)]), iid))
  }

  function NewInvocation(db: Db, prev: Option<InvocationId>, key: IngressKey, egress: EgressKey, startBlock: nat)
    : Result<(Db, InvocationId), DbError>
  {
    match prev
    case None => InsertInvocation(db, key, egress, startBlock)
    case Some(iid) =>
      match Decommission(db, iid)
      case Err(e) => Err(e)
      case Ok(db1) => InsertInvocation(db1, key, egress, startBlock)
  }

  predicate ViolatesUnique(blocks: seq<BlockRow>, iid: InvocationId, key: IngressKey, block: nat) {
    exists i :: 0 <= i < |blocks| && (blocks[i].key == key || blocks[i].iid == iid) && blocks[i].block == block
  }

  /** The flag is `block_already_scanned_with_this_key`: a violated uniqueness constraint. */
  function AddBlockData(db: Db, iid: InvocationId, block: nat, cumulative: nat, timestamp: nat,
                        records: seq<ETxOutRecord>)
    : Result<(Db, bool), DbError>
  {
    if iid >= |db.invocations| then Err(NotFound)
    else
      var key := db.invocations[iid].key;
      if key !in db.keys then Err(ConstraintViolation)
      else if ViolatesUnique(db.blocks, iid, key, block) then Ok((db, true))
      else Ok((db.(blocks := db.blocks + [BlockRow(iid, key, block, cumulative, timestamp, records)]), false))
  }

  /** The range of promised blocks not scanned with a key, or None when there is nothing to report. */
  function MissedRange(db: Db, key: IngressKey): Option<BlockRange>
    requires key in db.keys
  {
    var range := BlockRange(db.keys[key].startBlock, db.keys[key].pubkeyExpiry);
    match LastScanned(db.blocks, key)
    case Some(last) =>
      if last + 1 >= range.endBlock then None
      else
        var range' := if last + 1 > range.startBlock then range.(startBlock := last + 1) else range;
        if range'.IsValid() then Some(range') else None
    case None => if range.IsValid() then Some(range) else None
  }

  /** UNIQUE(missing_blocks_start, missing_blocks_end): the same range cannot be recorded twice,
      and then the whole transaction, including the lost flag, is rolled back. */
  function ReportLost(db: Db, key: IngressKey): Result<Db, DbError> {
    if key !in db.keys then Err(MissingIngressKey)
    else
      var db1 := db.(keys := db.keys[key := db.keys[key].(lost := true)]);
      match MissedRange(db, key)
      case None => Ok(db1)
      case Some(range) =>
        if MissingBlocks(range) in db.events then Err(ConstraintViolation)
        else Ok(db1.(events := db.events + [MissingBlocks(range)]))
  }

  /** Raise the key's expiry (never lower it, never while retired), then upsert the report row
      unless the key is retired. */
  function SetReport(db: Db, key: IngressKey, reportId: ReportId, iid: Option<InvocationId>, expiry: nat)
    : Result<(Db, KeyStatus), DbError>
  {
    if key !in db.keys then Err(MissingIngressKey)
    else
      var old_ := db.keys[key];
      var status := if !old_.retired && old_.pubkeyExpiry < expiry then old_.(pubkeyExpiry := expiry) else old_;
      if status.retired then Ok((db, status))
      else if iid.Some? && iid.value >= |db.invocations| then Err(ConstraintViolation)
      else Ok((db.(keys := db.keys[key := status],
                   reports := db.reports[reportId := Report(key, iid, expiry)]), status))
  }

  function RemoveReport(db: Db, reportId: ReportId): Db {
    db.(reports := db.reports - {reportId})
  }

  // ---- one transaction as a value -----------------------------------------------------------

  datatype DbOp =
    | OpNone
    | OpNewKey(key: IngressKey, startBlock: nat)
    | OpRetire(key: IngressKey, setRetired: bool)
    | OpNewInvocation(prev: Option<InvocationId>, key: IngressKey, egress: EgressKey, startBlock: nat)
    | OpDecommission(iid: InvocationId)
    | OpAddBlock(iid: InvocationId, block: nat, cumulative: nat, timestamp: nat, records: seq<ETxOutRecord>)
    | OpReportLost(key: IngressKey)
    | OpSetReport(key: IngressKey, reportId: ReportId, publisher: Option<InvocationId>, expiry: nat)
    | OpRemoveReport(reportId: ReportId)

  /** The tables after a transaction was attempted; a failed one changes nothing. */
  function DbApply(db: Db, op: DbOp): Db {
    match op
    case OpNone => db
    case OpNewKey(key, startBlock) => NewIngressKey(db, key, startBlock).0
    case OpRetire(key, setRetired) => RetireIngressKey(db, key, setRetired)
    case OpNewInvocation(prev, key, egress, startBlock) =>
      var r := NewInvocation(db, prev, key, egress, startBlock); if r.Ok? then r.value.0 else db
    case OpDecommission(iid) => var r := Decommission(db, iid); if r.Ok? then r.value else db
    case OpAddBlock(iid, block, cumulative, timestamp, records) =>
      var r := AddBlockData(db, iid, block, cumulative, timestamp, records); if r.Ok? then r.value.0 else db
    case OpReportLost(key) => var r := ReportLost(db, key); if r.Ok? then r.value else db
    case OpSetReport(key, reportId, publisher, expiry) =>
      var r := SetReport(db, key, reportId, publisher, expiry); if r.Ok? then r.value.0 else db
    case OpRemoveReport(reportId) => RemoveReport(db, reportId)
  }

  /** Any sequence of transactions, in the order in which they commit. */
  function DbRun(db: Db, ops: seq<DbOp>): Db {
    if |ops| == 0 then db else DbApply(DbRun(db, ops[..|ops| - 1]), ops[|ops| - 1])
  }
}
