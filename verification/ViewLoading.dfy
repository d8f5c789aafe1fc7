/**
 * A view server holds the rows of each ingress key up to some block. Since an egress key serves one ingress
 * key and a key's rows are committed in block order, it holds a prefix of every rng's stream, however far it
 * has got with each key.
 */
module ViewLoading {
  import opened RecoveryTables
  import opened IngestEnclave
  import opened IngestProtocol
  import opened Contiguity
  import opened ContiguityRuns
  import opened RngStreams
  import opened EgressOwners
  import opened BlockTracker

  predicate RowLoaded(processed: Progress, row: BlockRow) {
    row.key in processed && row.block <= processed[row.key]
  }

  /** The rows a view server has loaded, in commit order. */
  function LoadedRows(processed: Progress, blocks: seq<BlockRow>): seq<BlockRow> {
    if |blocks| == 0 then []
    else
      var front, row := LoadedRows(processed, blocks[..|blocks| - 1]), blocks[|blocks| - 1];
      if RowLoaded(processed, row) then front + [row] else front
  }

  lemma {:induction false} LoadedMember(processed: Progress, blocks: seq<BlockRow>, r: nat) returns (r': nat)
    requires r < |blocks| && RowLoaded(processed, blocks[r])
    ensures r' < |LoadedRows(processed, blocks)| && LoadedRows(processed, blocks)[r'] == blocks[r]
  {
    if r < |blocks| - 1 {
      r' := LoadedMember(processed, blocks[..|blocks| - 1], r);
    } else {
      r' := |LoadedRows(processed, blocks[..|blocks| - 1])|;
    }
  }

  /** Rows of one key are committed in block order. */
  ghost predicate RowsAscend(blocks: seq<BlockRow>) {
    forall r, r' :: 0 <= r < r' < |blocks| && blocks[r].key == blocks[r'].key ==> blocks[r].block < blocks[r'].block
  }

  lemma ContiguousAscend(db: Db)
    requires DbOk(db)
    ensures RowsAscend(db.blocks)
  {
    forall r, r' | 0 <= r < r' < |db.blocks| && db.blocks[r].key == db.blocks[r'].key
      ensures db.blocks[r].block < db.blocks[r'].block
    {
      var key, before, upTo := db.blocks[r].key, db.blocks[..r'], db.blocks[..r' + 1];
      assert KeyContiguous(db, key);
      assert upTo[..r'] == before && before[r] == db.blocks[r];
      ScannedGrows(before, db.blocks, key);
      ScannedGrows(upTo, db.blocks, key);
      ScannedMember(before, key, db.blocks[r].block);
      var x :| 0 <= x < |Scanned(before, key)| && Scanned(before, key)[x] == db.blocks[r].block;
      assert Scanned(upTo, key)[|Scanned(before, key)|] == db.blocks[r'].block;
    }
  }

  /** If every row with outputs of this rng is loaded, so is all of it. */
  lemma {:induction false} WhollyLoaded(processed: Progress, blocks: seq<BlockRow>, secret: Secret)
    requires forall r :: 0 <= r < |blocks| && KeysOf(blocks[r].records, secret) != [] ==>
               RowLoaded(processed, blocks[r])
    ensures Published(LoadedRows(processed, blocks), secret) == Published(blocks, secret)
  {
    if |blocks| > 0 {
      var front, row := blocks[..|blocks| - 1], blocks[|blocks| - 1];
      WhollyLoaded(processed, front, secret);
      if RowLoaded(processed, row) {
        PublishedAppend(LoadedRows(processed, front), row, secret);
      } else {
        assert KeysOf(row.records, secret) == [];
      }
    }
  }

  lemma UsesItsEgress(records: seq<ETxOutRecord>, secret: Secret)
    requires KeysOf(records, secret) != []
    ensures HasEgress(records, secret.egress)
  {
    if !HasEgress(records, secret.egress) {
      var others := set j | 0 <= j < |records| :: records[j].searchKey.secret.egress;
      KeysOfForeign(records, others, secret);
    }
  }

  /** Of every rng, what is loaded is a prefix of what is stored. */
  lemma {:induction false} LoadedIsPrefix(processed: Progress, blocks: seq<BlockRow>, secret: Secret)
    requires OneKeyPerEgress(blocks) && RowsAscend(blocks)
    ensures Published(LoadedRows(processed, blocks), secret) <= Published(blocks, secret)
  {
    if |blocks| > 0 {
      var front, row := blocks[..|blocks| - 1], blocks[|blocks| - 1];
      if RowLoaded(processed, row) && KeysOf(row.records, secret) != [] {
        UsesItsEgress(row.records, secret);
        forall r | 0 <= r < |front| && KeysOf(front[r].records, secret) != []
          ensures RowLoaded(processed, front[r])
        {
          UsesItsEgress(front[r].records, secret);
          assert HasEgress(blocks[r].records, secret.egress) && HasEgress(blocks[|blocks| - 1].records, secret.egress);
        }
        WhollyLoaded(processed, front, secret);
        PublishedAppend(LoadedRows(processed, front), row, secret);
      } else {
        assert OneKeyPerEgress(front) by {
          assert forall r :: 0 <= r < |front| ==> front[r] == blocks[r];
        }
        LoadedIsPrefix(processed, front, secret);
        if RowLoaded(processed, row) {
          PublishedAppend(LoadedRows(processed, front), row, secret);
        }
      }
    }
  }

  /** What the view server serves: the database as far as it is loaded. */
  function LoadedDb(db: Db, processed: Progress): Db {
    db.(blocks := LoadedRows(processed, db.blocks))
  }

  /** However far a view server has got with a database without gaps, it holds of each rng a prefix without gaps. */
  lemma LoadedGapFree(t: Trace, n: nat, processed: Progress)
    requires IsRun(t) && n < |t.worlds| && GapFree(t.worlds[n].db)
    ensures GapFree(LoadedDb(t.worlds[n].db, processed))
  {
    var db := t.worlds[n].db;
    RunInv(t, n);
    RunOwners(t, n);
    ContiguousAscend(db);
    forall secret: Secret
      ensures Gapless(Published(LoadedRows(processed, db.blocks), secret), secret)
    {
      LoadedIsPrefix(processed, db.blocks, secret);
      assert Gapless(Published(db.blocks, secret), secret);
      PrefixGapless(Published(db.blocks, secret), Published(LoadedRows(processed, db.blocks), secret), secret);
    }
  }
}
