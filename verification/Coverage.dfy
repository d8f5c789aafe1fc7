/**
 * Block ranges (fog/fog_types/src/common.rs) and the arithmetic by which the view server decides
 * which blocks an ingress key or an ingest invocation still has to provide
 * (fog/recovery_db_iface/src/types.rs).
 */
module Coverage {
  import opened Prelude

  /** A half-open range [startBlock, endBlock). */
  datatype BlockRange = BlockRange(startBlock: nat, endBlock: nat) {
    predicate Contains(block: nat) {
      block >= startBlock && block < endBlock
    }

    predicate IsValid() {
      endBlock > startBlock
    }

    predicate Overlaps(other: BlockRange) {
      startBlock < other.endBlock && other.startBlock < endBlock
    }
  }

  datatype KeyStatus = KeyStatus(startBlock: nat, pubkeyExpiry: nat, retired: bool, lost: bool)

  datatype KeyRecord = KeyRecord(status: KeyStatus, lastScanned: Option<nat>) {
    predicate CoversBlockIndex(block: nat) {
      if status.lost then
        status.startBlock <= block && lastScanned.Some? && block <= lastScanned.value
      else
        status.startBlock <= block && (!status.retired || block < status.pubkeyExpiry)
    }

    function NextNeededBlockIndex(): Option<nat> {
      var candidate := if lastScanned.Some? then lastScanned.value + 1 else status.startBlock;
      if CoversBlockIndex(candidate) then Some(candidate) else None
    }
  }

  datatype IngestableRange = IngestableRange(startBlock: nat, decommissioned: bool, lastIngested: Option<nat>) {
    predicate CanProvideBlock(block: nat) {
      if block < startBlock then false
      else if decommissioned then lastIngested.Some? && lastIngested.value >= block
      else true
    }
  }

  /** A range is valid exactly when it holds a block. */
  lemma ValidIffInhabited(r: BlockRange)
    ensures r.IsValid() <==> exists b: nat :: r.Contains(b)
  {
    if r.IsValid() {
      assert r.Contains(r.startBlock);
    }
  }

  /** For valid ranges, overlapping means sharing a block. */
  lemma OverlapsIffShareBlock(r: BlockRange, q: BlockRange)
    requires r.IsValid() && q.IsValid()
    ensures r.Overlaps(q) <==> exists b: nat :: r.Contains(b) && q.Contains(b)
  {
    if r.Overlaps(q) {
      var b := Max(r.startBlock, q.startBlock);
      assert r.Contains(b) && q.Contains(b);
    }
  }

  /** Without validity it does not: an empty range inside another one overlaps it. */
  lemma EmptyRangeOverlaps()
    ensures exists r: BlockRange, q: BlockRange ::
              r.Overlaps(q) && !r.IsValid() && !(exists b: nat :: r.Contains(b) && q.Contains(b))
  {
    var r, q := BlockRange(5, 5), BlockRange(0, 10);
    assert r.Overlaps(q) && !r.IsValid();
    assert forall b: nat :: !r.Contains(b);
  }
}
