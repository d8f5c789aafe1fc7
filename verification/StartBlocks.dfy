/**
 * Where an activation starts (fog/ingest/server/src/controller.rs:649-680): a known key after the last block scanned
 * with it, a new key after the last block anyone knows of.
 */
module StartBlocks {
  import opened Prelude
  import opened Coverage
  import opened FogView
  import opened RecoveryTables

  /** The key is retired, and the block is past the last one it was promised for. */
  ghost predicate NothingLeft(keys: map<IngressKey, KeyStatus>, key: IngressKey, block: nat) {
    key in keys && keys[key].retired && block > keys[key].pubkeyExpiry
  }

  /** After all blocks of the ledger and all that anyone has stored, and no later. */
  ghost predicate StartsAfterAll(blocks: seq<BlockRow>, ledgerNumBlocks: nat, start: nat) {
    && ledgerNumBlocks <= start && (forall r :: 0 <= r < |blocks| ==> blocks[r].block < start)
    && (start == ledgerNumBlocks || exists r :: 0 <= r < |blocks| && blocks[r].block == start - 1)
  }

  /** After all blocks stored for the key and no later, or at `first` if there is none. */
  ghost predicate StartsAfterOwn(blocks: seq<BlockRow>, key: IngressKey, first: nat, start: nat) {
    && (forall r :: 0 <= r < |blocks| && blocks[r].key == key ==> blocks[r].block < start)
    && ((start > 0 && HasRow(blocks, key, start - 1)) ||
        (start == first && forall r :: 0 <= r < |blocks| ==> blocks[r].key != key))
  }

  lemma {:induction false} HighestMeans(blocks: seq<BlockRow>)
    ensures HighestKnown(blocks).None? <==> blocks == []
    ensures HighestKnown(blocks).Some? ==>
              && (forall r :: 0 <= r < |blocks| ==> blocks[r].block <= HighestKnown(blocks).value)
              && exists r :: 0 <= r < |blocks| && blocks[r].block == HighestKnown(blocks).value
  {
    if |blocks| > 0 {
      var front := blocks[..|blocks| - 1];
      HighestMeans(front);
      if HighestKnown(blocks) == HighestKnown(front) {
        var r :| 0 <= r < |front| && front[r].block == HighestKnown(front).value;
        assert blocks[r] == front[r];
      } else {
        assert blocks[|blocks| - 1].block == HighestKnown(blocks).value;
      }
    }
  }

  lemma {:induction false} LastScannedMeans(blocks: seq<BlockRow>, key: IngressKey)
    ensures LastScanned(blocks, key).None? <==> forall r :: 0 <= r < |blocks| ==> blocks[r].key != key
    ensures LastScanned(blocks, key).Some? ==>
              && (forall r :: 0 <= r < |blocks| && blocks[r].key == key ==>
                  blocks[r].block <= LastScanned(blocks, key).value)
              && HasRow(blocks, key, LastScanned(blocks, key).value)
  {
    if |blocks| > 0 {
      var front, last := blocks[..|blocks| - 1], |blocks| - 1;
      LastScannedMeans(front, key);
      if LastScanned(front, key).Some? {
        var r :| 0 <= r < |front| && front[r].key == key && front[r].block == LastScanned(front, key).value;
        assert blocks[r] == front[r];
      }
      assert blocks[last].key == key ==> HasRow(blocks, key, blocks[last].block);
    }
  }

  lemma StartAfterAll(blocks: seq<BlockRow>, ledgerNumBlocks: nat)
    ensures var high := HighestKnown(blocks);
            StartsAfterAll(blocks, ledgerNumBlocks, Max(ledgerNumBlocks, if high.Some? then high.value + 1 else 0))
  {
    HighestMeans(blocks);
  }

  lemma StartAfterOwn(blocks: seq<BlockRow>, key: IngressKey, first: nat)
    ensures var last := LastScanned(blocks, key);
            StartsAfterOwn(blocks, key, first, if last.Some? then last.value + 1 else first)
  {
    LastScannedMeans(blocks, key);
  }
}
