/**
 * The view server's bookkeeping (fog/view/server/src/block_tracker.rs): which block was loaded last for
 * every ingress key, which one is wanted next, and up to which block count everything is loaded.
 */
module BlockTracker {
  import opened Prelude
  import opened Coverage
  import opened FogView

  datatype TrackedKey = TrackedKey(key: IngressKey, record: KeyRecord)

  type Progress = map<IngressKey, nat>

  /** The block to load next for a key, if it is to provide one. */
  function NextFor(processed: Progress, rec: TrackedKey): Option<nat> {
    var next := if rec.key in processed then processed[rec.key] + 1 else rec.record.status.startBlock;
    if rec.record.CoversBlockIndex(next) then Some(next) else None
  }

  /** The key must provide this block and it has not been loaded. */
  predicate Blocks(processed: Progress, rec: TrackedKey, block: nat) {
    rec.record.CoversBlockIndex(block) && !(rec.key in processed && block <= processed[rec.key])
  }

  /** Some key has been loaded up to this block or beyond. */
  predicate Known(processed: Progress, block: nat) {
    exists k :: k in processed && block <= processed[k]
  }

  /** The count may move past this block. */
  predicate Passable(processed: Progress, records: seq<TrackedKey>, block: nat) {
    Known(processed, block) && forall i :: 0 <= i < |records| ==> !Blocks(processed, records[i], block)
  }

  /** From count `from`, the first block that cannot be passed is `to`. */
  ghost predicate CountsTo(processed: Progress, records: seq<TrackedKey>, from: nat, to: nat) {
    && from <= to
    && (forall b :: from <= b < to ==> Passable(processed, records, b))
    && !Passable(processed, records, to)
  }

  class BlockTracker {
    var processed: Progress
    var lastCount: nat

    constructor ()
      ensures processed == map[] && lastCount == 0
    {
      processed, lastCount := map[], 0;
    }

    /** For each key, the block to load next. */
    method NextBlocks(records: seq<TrackedKey>) returns (next: map<IngressKey, nat>)
      ensures forall k :: k in next <==>
                exists i :: 0 <= i < |records| && records[i].key == k && NextFor(processed, records[i]).Some?
      ensures forall k :: k in next ==>
                exists i :: 0 <= i < |records| && records[i].key == k && NextFor(processed, records[i]) == Some(next[k])
    {
      next := map[];
      for n := 0 to |records|
        invariant forall k :: k in next <==>
                    exists i :: 0 <= i < n && records[i].key == k && NextFor(processed, records[i]).Some?
        invariant forall k :: k in next ==>
                    exists i :: 0 <= i < n && records[i].key == k && NextFor(processed, records[i]) == Some(next[k])
      {
        var rec := records[n];
        if rec.key in processed {
          var nextBlock := processed[rec.key] + 1;
          if rec.record.CoversBlockIndex(nextBlock) {
            next := next[rec.key := nextBlock];
          }
        } else if rec.record.CoversBlockIndex(rec.record.status.startBlock) {
          next := next[rec.key := rec.record.status.startBlock];
        }
      }
    }

    /** The source panics when a block is skipped or repeated. */
    method BlockProcessed(key: IngressKey, block: nat)
      requires key in processed ==> block == processed[key] + 1
      modifies this`processed
      ensures processed == old(processed)[key := block]
    {
      processed := processed[key := block];
    }

    method HighestKnownBlockCount() returns (count: nat)
      ensures forall b: nat :: b < count <==> Known(processed, b)
    {
      count := 0;
      var rest := processed.Keys;
      while rest != {}
        invariant rest <= processed.Keys
        invariant forall k :: k in processed.Keys - rest ==> processed[k] + 1 <= count
        invariant count == 0 || exists k :: k in processed && processed[k] + 1 == count
        decreases |rest|
      {
        var k :| k in rest;
        count := Max(count, processed[k] + 1);
        rest := rest - {k};
      }
    }

    /** Advance the count to the first block that cannot be passed, and say which key is in the way. */
    method HighestFullyProcessedBlockCount(records: seq<TrackedKey>) returns (count: nat, reason: Option<TrackedKey>)
      modifies this`lastCount
      ensures count == lastCount && CountsTo(processed, records, old(lastCount), count)
      ensures reason.Some? ==>
                reason.value in records && Known(processed, count) && Blocks(processed, reason.value, count)
      ensures reason.None? <==> !Known(processed, count)
    {
      var known := HighestKnownBlockCount();
      reason := None;
      while reason.None? && lastCount + 1 <= known
        invariant old(lastCount) <= lastCount && forall b :: old(lastCount) <= b < lastCount ==>
                    Passable(processed, records, b)
        invariant reason.Some? ==>
                    lastCount < known && reason.value in records && Blocks(processed, reason.value, lastCount)
        decreases known - lastCount, if reason.None? then 1 else 0
      {
        var i := 0;
        while i < |records| && !Blocks(processed, records[i], lastCount)
          invariant 0 <= i <= |records|
          invariant forall j :: 0 <= j < i ==> !Blocks(processed, records[j], lastCount)
        {
          i := i + 1;
        }
        if i < |records| {
          reason := Some(records[i]);
        } else {
          lastCount := lastCount + 1;
        }
      }
      count := lastCount;
    }
  }
}
