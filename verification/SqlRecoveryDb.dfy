/**
 * The SQL-backed recovery database as an object (fog/sql_recovery_db/src/lib.rs). Each method is
 * one transaction carried out on the tables step by step; its contract is the transaction function
 * of RecoveryTables.
 */
module SqlRecoveryDb {
  import opened Prelude
  import opened Coverage
  import opened FogView
  import opened RecoveryTables

  datatype TxOutSearchResult = Found(searchKey: SearchKey, ciphertext: Payload) | NotFound(searchKey: SearchKey)

  class SqlRecoveryDb {
    var keys: map<IngressKey, KeyStatus>
    var invocations: seq<Invocation>
    var blocks: seq<BlockRow>
    var events: seq<UserEvent>
    var reports: map<ReportId, Report>

    function Value(): Db
      reads this
    {
      Db(keys, invocations, blocks, events, reports)
    }

    constructor ()
      ensures Value() == EMPTY_DB
    {
      keys, invocations, blocks, events, reports := map[], [], [], [], map[];
    }

    method NewIngressKey(key: IngressKey, startBlock: nat) returns (inserted: bool)
      modifies this
      ensures (Value(), inserted) == RecoveryTables.NewIngressKey(old(Value()), key, startBlock)
    {
      inserted := key !in keys;
      if inserted {
        keys := keys[key := KeyStatus(startBlock, 0, false, false)];
      }
    }

    method RetireIngressKey(key: IngressKey, setRetired: bool)
      modifies this
      ensures Value() == RecoveryTables.RetireIngressKey(old(Value()), key, setRetired)
    {
      if key in keys {
        keys := keys[key := keys[key].(retired := setRetired)];
      }
    }

    /** Inside a transaction: mark the invocation and write the user event. */
    method DecommissionIngestInvocation(iid: InvocationId) returns (r: Result<(), DbError>)
      modifies this
      ensures r.Ok? <==> Decommission(old(Value()), iid).Ok?
      ensures r.Err? ==> r.error == ConstraintViolation
      ensures Value() == DbApply(old(Value()), OpDecommission(iid))
    {
      if iid >= |invocations| || UserEvent.DecommissionIngestInvocation(iid) in events {
        return Err(ConstraintViolation);
      }
      invocations := invocations[iid := invocations[iid].(decommissioned := true)];
      events := events + [UserEvent.DecommissionIngestInvocation(iid)];
      r := Ok(());
    }

    /** Decommission the previous invocation, insert the new one, write the event; roll back on any failure. */
    method NewIngestInvocation(prev: Option<InvocationId>, key: IngressKey, egress: EgressKey, startBlock: nat)
      returns (r: Result<InvocationId, DbError>)
      modifies this
      ensures var spec := NewInvocation(old(Value()), prev, key, egress, startBlock);
              && (r.Ok? <==> spec.Ok?) && (r.Err? ==> r.error == ConstraintViolation)
              && (r.Ok? ==> r.value == spec.value.1)
      ensures Value() == DbApply(old(Value()), OpNewInvocation(prev, key, egress, startBlock))
    {
      var savedInvocations, savedEvents := invocations, events;
      if prev.Some? {
        var d := DecommissionIngestInvocation(prev.value);
        if d.Err? {
          return Err(ConstraintViolation);
        }
      }
      if key !in keys || egress in EgressKeys(invocations) {
        invocations, events := savedInvocations, savedEvents;
        return Err(ConstraintViolation);
      }
      var iid := |invocations|;
      invocations := invocations + [Invocation(key, egress, startBlock, false)];
      events := events + [UserEvent.NewIngestInvocation(iid)];
      r := Ok(iid);
    }

    method AddBlockData(iid: InvocationId, block: nat, cumulative: nat, timestamp: nat, records: seq<ETxOutRecord>)
      returns (r: Result<bool, DbError>)
      modifies this
      ensures var spec := RecoveryTables.AddBlockData(old(Value()), iid, block, cumulative, timestamp, records);
              && (r.Ok? <==> spec.Ok?)
              && (r.Err? ==> r.error == if iid >= |old(invocations)| then DbError.NotFound else ConstraintViolation)
              && (r.Ok? ==> r.value == spec.value.1)
      ensures Value() == DbApply(old(Value()), OpAddBlock(iid, block, cumulative, timestamp, records))
    {
      if iid >= |invocations| {
        return Err(DbError.NotFound);
      }
      var key := invocations[iid].key;
      if key !in keys {
        return Err(ConstraintViolation);
      }
      if ViolatesUnique(blocks, iid, key, block) {
        return Ok(true);
      }
      blocks := blocks + [BlockRow(iid, key, block, cumulative, timestamp, records)];
      r := Ok(false);
    }

    /** Mark the key lost, then shrink the promised range by what was scanned and record the rest. */
    method ReportLostIngressKey(key: IngressKey) returns (r: Result<(), DbError>)
      modifies this
      ensures r.Ok? <==> ReportLost(old(Value()), key).Ok?
      ensures r.Err? ==> r.error == if key !in old(keys) then MissingIngressKey else ConstraintViolation
      ensures Value() == DbApply(old(Value()), OpReportLost(key))
    {
      if key !in keys {
        return Err(MissingIngressKey);
      }
      var saved := keys;
      keys := keys[key := keys[key].(lost := true)];
      var startBlock, endBlock := keys[key].startBlock, keys[key].pubkeyExpiry;
      var last := LastScanned(blocks, key);
      if last.Some? {
        if last.value + 1 >= endBlock {
          return Ok(());
        }
        if last.value + 1 > startBlock {
          startBlock := last.value + 1;
        }
      }
      var missed := BlockRange(startBlock, endBlock);
      if !missed.IsValid() {
        return Ok(());
      }
      if MissingBlocks(missed) in events {
        keys := saved;
        return Err(ConstraintViolation);
      }
      events := events + [MissingBlocks(missed)];
      r := Ok(());
    }

    /** Try to raise the expiry; if nothing was updated, read the status; publish unless retired. */
    method SetReport(key: IngressKey, reportId: ReportId, publisher: Option<InvocationId>, expiry: nat)
      returns (r: Result<KeyStatus, DbError>)
      modifies this
      ensures var spec := RecoveryTables.SetReport(old(Value()), key, reportId, publisher, expiry);
              && (r.Ok? <==> spec.Ok?)
              && (r.Ok? ==> r.value == spec.value.1)
      ensures r.Err? ==> r.error == if key !in old(keys) then MissingIngressKey else ConstraintViolation
      ensures Value() == DbApply(old(Value()), OpSetReport(key, reportId, publisher, expiry))
    {
      var saved := keys;
      if key in keys && !keys[key].retired && keys[key].pubkeyExpiry < expiry {
        keys := keys[key := keys[key].(pubkeyExpiry := expiry)];
      } else if key !in keys {
        return Err(MissingIngressKey);
      }
      var status := keys[key];
      if status.retired {
        return Ok(status);
      }
      if publisher.Some? && publisher.value >= |invocations| {
        keys := saved;
        return Err(ConstraintViolation);
      }
      assert keys == old(keys)[key := status];
      reports := reports[reportId := Report(key, publisher, expiry)];
      r := Ok(status);
    }

    method RemoveReport(reportId: ReportId)
      modifies this
      ensures Value() == RecoveryTables.RemoveReport(old(Value()), reportId)
    {
      reports := reports - {reportId};
    }

    /** Collect the payloads of all blocks from startBlock on, then answer every query in order. */
    method GetTxOuts(startBlock: nat, searchKeys: seq<SearchKey>) returns (results: seq<TxOutSearchResult>)
      ensures |results| == |searchKeys|
      ensures forall q :: 0 <= q < |searchKeys| ==> results[q] == AnswerTo(blocks, startBlock, searchKeys[q])
    {
      var payloads: map<SearchKey, Payload> := map[];
      for r := 0 to |blocks|
        invariant PayloadsOf(payloads, blocks[..r], startBlock)
      {
        ghost var seen := payloads;
        if blocks[r].block >= startBlock {
          var records := blocks[r].records;
          for j := 0 to |records|
            invariant forall key :: Pick(records[..j], key, if key in seen then Some(seen[key]) else None)
                                    == if key in payloads then Some(payloads[key]) else None
          {
            assert records[..j + 1][..j] == records[..j];
            payloads := payloads[records[j].searchKey := records[j].payload];
          }
          assert records[..|records|] == records;
        }
        assert blocks[..r + 1][..r] == blocks[..r];
      }
      assert blocks[..|blocks|] == blocks;
      results := [];
      for q := 0 to |searchKeys|
        invariant |results| == q
        invariant forall p :: 0 <= p < q ==> results[p] == AnswerTo(blocks, startBlock, searchKeys[p])
      {
        var key := searchKeys[q];
        results := results + [if key in payloads then Found(key, payloads[key]) else TxOutSearchResult.NotFound(key)];
      }
    }
  }

  /** The payload stored last under a search key in a list of records, or `before` if there is none. */
  function Pick(records: seq<ETxOutRecord>, key: SearchKey, before: Option<Payload>): Option<Payload> {
    if |records| == 0 then before
    else if records[|records| - 1].searchKey == key then Some(records[|records| - 1].payload)
    else Pick(records[..|records| - 1], key, before)
  }

  /** The payload stored last under a search key in the blocks from startBlock on. */
  function StoredPayload(blocks: seq<BlockRow>, startBlock: nat, key: SearchKey): Option<Payload> {
    if |blocks| == 0 then None
    else
      var before := StoredPayload(blocks[..|blocks| - 1], startBlock, key);
      var row := blocks[|blocks| - 1];
      if row.block >= startBlock then Pick(row.records, key, before) else before
  }

  function AnswerTo(blocks: seq<BlockRow>, startBlock: nat, key: SearchKey): TxOutSearchResult {
    match StoredPayload(blocks, startBlock, key)
    case Some(payload) => Found(key, payload)
    case None => TxOutSearchResult.NotFound(key)
  }

  ghost predicate PayloadsOf(payloads: map<SearchKey, Payload>, blocks: seq<BlockRow>, startBlock: nat) {
    forall key :: StoredPayload(blocks, startBlock, key) == if key in payloads then Some(payloads[key]) else None
  }
}
