/**
 * Looking records up by search key (fog/sql_recovery_db/src/lib.rs:711-764). The rng theorem makes
 * all search keys in the database distinct, and then a lookup finds exactly the record it should.
 */
module TxOutLookup {
  import opened Prelude
  import opened RecoveryTables
  import opened IngestEnclave
  import opened IngestProtocol
  import opened RngStreams
  import opened RngRuns
  import opened SqlRecoveryDb

  ghost predicate At(blocks: seq<BlockRow>, r: int, j: int) {
    0 <= r < |blocks| && 0 <= j < |blocks[r].records|
  }

  /** No two records of the database share a search key. */
  ghost predicate DistinctSearchKeys(blocks: seq<BlockRow>) {
    forall r, j, r', j' ::
      (At(blocks, r, j) && At(blocks, r', j') && blocks[r].records[j].searchKey == blocks[r'].records[j'].searchKey) ==>
        r == r' && j == j'
  }

  /** Some block at or after startBlock holds this record. */
  ghost predicate Holds(blocks: seq<BlockRow>, startBlock: nat, key: SearchKey, payload: Payload) {
    exists r, j :: At(blocks, r, j) && blocks[r].block >= startBlock
      && blocks[r].records[j] == ETxOutRecord(key, payload)
  }

  lemma {:induction false} PickMeans(records: seq<ETxOutRecord>, key: SearchKey, before: Option<Payload>)
    ensures Pick(records, key, before) == before
            || (exists j :: 0 <= j < |records| && records[j].searchKey == key
                            && Pick(records, key, before) == Some(records[j].payload))
    ensures (exists j :: 0 <= j < |records| && records[j].searchKey == key) ==>
              exists j :: 0 <= j < |records| && records[j].searchKey == key
                && Pick(records, key, before) == Some(records[j].payload)
  {
    if |records| > 0 && records[|records| - 1].searchKey != key {
      var front := records[..|records| - 1];
      PickMeans(front, key, before);
      if exists j :: 0 <= j < |records| && records[j].searchKey == key {
        var j :| 0 <= j < |records| && records[j].searchKey == key;
        assert front[j].searchKey == key;
        var i :| 0 <= i < |front| && front[i].searchKey == key && Pick(front, key, before) == Some(front[i].payload);
        assert records[i] == front[i];
      }
    }
  }

  /** A lookup answers Found only with a record that is stored, and NotFound only when there is none. */
  lemma {:induction false} LookupSound(blocks: seq<BlockRow>, startBlock: nat, key: SearchKey)
    ensures var p := StoredPayload(blocks, startBlock, key);
            && (p.Some? ==> Holds(blocks, startBlock, key, p.value))
            && (p.None? ==> forall payload :: !Holds(blocks, startBlock, key, payload))
  {
    if |blocks| > 0 {
      var front, row := blocks[..|blocks| - 1], blocks[|blocks| - 1];
      var before := StoredPayload(front, startBlock, key);
      LookupSound(front, startBlock, key);
      if row.block >= startBlock {
        PickMeans(row.records, key, before);
      }
      var p := StoredPayload(blocks, startBlock, key);
      if p.Some? && p != before {
        var j :| 0 <= j < |row.records| && row.records[j].searchKey == key && p == Some(row.records[j].payload);
        assert At(blocks, |blocks| - 1, j) && blocks[|blocks| - 1].records[j] == ETxOutRecord(key, p.value);
      }
      if p.None? {
        forall payload
          ensures !Holds(blocks, startBlock, key, payload)
        {
          HoldsSplits(blocks, startBlock, key, payload);
        }
      }
    }
  }

  /** The answer to a query names its search key; it is Found with a stored payload, or nothing is stored. */
  lemma AnswerMeans(blocks: seq<BlockRow>, startBlock: nat, key: SearchKey)
    ensures var answer := AnswerTo(blocks, startBlock, key);
            && answer.searchKey == key
            && (answer.Found? ==> Holds(blocks, startBlock, key, answer.ciphertext))
            && (answer.NotFound? ==> forall payload :: !Holds(blocks, startBlock, key, payload))
  {
    LookupSound(blocks, startBlock, key);
  }

  /** A record held is held by an earlier row or by the last one. */
  lemma HoldsSplits(blocks: seq<BlockRow>, startBlock: nat, key: SearchKey, payload: Payload)
    requires |blocks| > 0
    ensures var row := blocks[|blocks| - 1];
            Holds(blocks, startBlock, key, payload) ==>
              Holds(blocks[..|blocks| - 1], startBlock, key, payload)
              || (row.block >= startBlock && exists j :: 0 <= j < |row.records| && row.records[j].searchKey == key)
  {
    if Holds(blocks, startBlock, key, payload) {
      var front := blocks[..|blocks| - 1];
      var r, j :| At(blocks, r, j) && blocks[r].block >= startBlock
        && blocks[r].records[j] == ETxOutRecord(key, payload);
      if r < |front| {
        assert At(front, r, j) && front[r] == blocks[r];
      } else {
        assert blocks[r].records[j].searchKey == key;
      }
    }
  }

  /** With distinct search keys, a query is Found exactly when some stored block from startBlock on has
      the key, and then with that record's payload. */
  lemma LookupExact(blocks: seq<BlockRow>, startBlock: nat, key: SearchKey, payload: Payload)
    requires DistinctSearchKeys(blocks)
    ensures AnswerTo(blocks, startBlock, key) == Found(key, payload) <==> Holds(blocks, startBlock, key, payload)
  {
    LookupSound(blocks, startBlock, key);
    if Holds(blocks, startBlock, key, payload) {
      var stored := StoredPayload(blocks, startBlock, key).value;
      var r, j :| At(blocks, r, j) && blocks[r].block >= startBlock
        && blocks[r].records[j] == ETxOutRecord(key, payload);
      var r', j' :| At(blocks, r', j') && blocks[r'].block >= startBlock
        && blocks[r'].records[j'] == ETxOutRecord(key, stored);
      assert r == r' && j == j';
    }
  }

  // ---- distinctness from the rng theorem ----------------------------------------------------------------

  /** The position, within its own rng's stream, of the record at (r, j). */
  function Position(blocks: seq<BlockRow>, r: nat, j: nat): nat
    requires r < |blocks| && j < |blocks[r].records|
  {
    var secret := blocks[r].records[j].searchKey.secret;
    |Published(blocks[..r], secret)| + |KeysOf(blocks[r].records[..j], secret)|
  }

  lemma KeysOfAt(rows: seq<ETxOutRecord>, j: nat)
    requires j < |rows|
    ensures var secret := rows[j].searchKey.secret;
            && |KeysOf(rows[..j], secret)| < |KeysOf(rows, secret)|
            && KeysOf(rows, secret)[|KeysOf(rows[..j], secret)|] == rows[j].searchKey
  {
    var secret := rows[j].searchKey.secret;
    assert rows == rows[..j] + rows[j..] && rows[j..] == [rows[j]] + rows[j + 1..];
    KeysOfAppend(rows[..j], rows[j..], secret);
    KeysOfAppend([rows[j]], rows[j + 1..], secret);
    assert [rows[j]][..0] == [];
    assert KeysOf([rows[j]], secret) == [rows[j].searchKey];
  }

  lemma {:induction false} PublishedPrefix(blocks: seq<BlockRow>, r: nat, secret: Secret)
    requires r <= |blocks|
    ensures Published(blocks[..r], secret) <= Published(blocks, secret)
    decreases |blocks|
  {
    if r < |blocks| {
      var front := blocks[..|blocks| - 1];
      PublishedPrefix(front, r, secret);
      assert front[..r] == blocks[..r];
    } else {
      assert blocks[..r] == blocks;
    }
  }

  lemma PublishedRow(blocks: seq<BlockRow>, r: nat, secret: Secret)
    requires r < |blocks|
    ensures Published(blocks[..r], secret) + KeysOf(blocks[r].records, secret) <= Published(blocks, secret)
  {
    PublishedPrefix(blocks, r + 1, secret);
    assert blocks[..r + 1][..r] == blocks[..r];
  }

  lemma StreamAtPosition(blocks: seq<BlockRow>, r: nat, j: nat)
    requires r < |blocks| && j < |blocks[r].records|
    ensures var key := blocks[r].records[j].searchKey;
            && Position(blocks, r, j) < |Published(blocks, key.secret)|
            && Published(blocks, key.secret)[Position(blocks, r, j)] == key
  {
    var secret := blocks[r].records[j].searchKey.secret;
    KeysOfAt(blocks[r].records, j);
    PublishedRow(blocks, r, secret);
  }

  /** Records of one rng stand in stream order. */
  lemma PositionsIncrease(blocks: seq<BlockRow>, r: nat, j: nat, r': nat, j': nat)
    requires r < |blocks| && j < |blocks[r].records| && r' < |blocks| && j' < |blocks[r'].records|
    requires blocks[r].records[j].searchKey.secret == blocks[r'].records[j'].searchKey.secret
    requires r < r' || (r == r' && j < j')
    ensures Position(blocks, r, j) < Position(blocks, r', j')
  {
    var secret := blocks[r].records[j].searchKey.secret;
    if r < r' {
      KeysOfAt(blocks[r].records, j);
      PublishedRow(blocks[..r'], r, secret);
      assert blocks[..r'][..r] == blocks[..r];
    } else {
      var rows := blocks[r].records[..j'];
      KeysOfAt(rows, j);
      assert rows[..j] == blocks[r].records[..j];
    }
  }

  /** In a gapless stream within one period of the counter, a search key tells its position. */
  lemma PositionOfKey(db: Db, r: nat, j: nat)
    requires GapFree(db) && r < |db.blocks| && j < |db.blocks[r].records|
    requires |Published(db.blocks, db.blocks[r].records[j].searchKey.secret)| <= TWO64
    ensures db.blocks[r].records[j].searchKey.counter == Position(db.blocks, r, j)
  {
    var key := db.blocks[r].records[j].searchKey;
    var stored, p := Published(db.blocks, key.secret), Position(db.blocks, r, j);
    assert Gapless(stored, key.secret);
    StreamAtPosition(db.blocks, r, j);
    OutputsAt(key.secret, |stored|, p);
    assert p % TWO64 == p;
  }

  /** Gapless streams that stay within one period of the counter have no repeated search key. */
  lemma GapFreeDistinct(db: Db)
    requires GapFree(db)
    requires forall secret: Secret :: |Published(db.blocks, secret)| <= TWO64
    ensures DistinctSearchKeys(db.blocks)
  {
    forall r, j, r', j' | At(db.blocks, r, j) && At(db.blocks, r', j') &&
        db.blocks[r].records[j].searchKey == db.blocks[r'].records[j'].searchKey
      ensures r == r' && j == j'
    {
      PositionOfKey(db, r, j);
      PositionOfKey(db, r', j');
      if r < r' || (r == r' && j < j') {
        PositionsIncrease(db.blocks, r, j, r', j');
      } else if r' < r || (r == r' && j' < j) {
        PositionsIncrease(db.blocks, r', j', r, j);
      }
    }
  }

  /** In every world of every run without ingest failures (and fewer than 2^64 records per rng), a
      lookup of a search key succeeds exactly when that record is stored at or after the start block. */
  lemma LookupsAgree(t: Trace, n: nat, startBlock: nat, key: SearchKey, payload: Payload)
    requires IsRun(t) && n < |t.worlds| && NoFailures(t, n)
    requires forall secret: Secret :: |Published(t.worlds[n].db.blocks, secret)| <= TWO64
    ensures AnswerTo(t.worlds[n].db.blocks, startBlock, key) == Found(key, payload) <==>
            Holds(t.worlds[n].db.blocks, startBlock, key, payload)
  {
    RunRngInv(t, n);
    GapFreeDistinct(t.worlds[n].db);
    LookupExact(t.worlds[n].db.blocks, startBlock, key, payload);
  }
}
