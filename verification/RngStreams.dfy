/**
 * No gaps in the rng sequences: for every egress key and every user, the records in the database
 * are exactly that user's rng outputs 0..k-1, in order, through lost races, lost acknowledgements,
 * mid-block rotations and crashes (fog/ingest/server/src/controller.rs:284-543). The hypothesis is
 * that the enclave's ingest_txs never fails.
 */
module RngStreams {
  import opened FogView
  import opened RecoveryTables
  import opened TableLaws
  import opened IngestEnclave
  import opened ControllerState
  import opened IngestProtocol
  import opened Contiguity
  import opened ContiguityRuns

  /** The search keys made with one rng that are in the database, in commit order. */
  function Published(blocks: seq<BlockRow>, secret: Secret): seq<SearchKey> {
    if |blocks| == 0 then []
    else Published(blocks[..|blocks| - 1], secret) + KeysOf(blocks[|blocks| - 1].records, secret)
  }

  lemma PublishedAppend(blocks: seq<BlockRow>, row: BlockRow, secret: Secret)
    ensures Published(blocks + [row], secret) == Published(blocks, secret) + KeysOf(row.records, secret)
  {
    assert (blocks + [row])[..|blocks|] == blocks;
  }

  predicate Gapless(s: seq<SearchKey>, secret: Secret) {
    s == Outputs(secret, |s|)
  }

  lemma PrefixGapless(whole: seq<SearchKey>, part: seq<SearchKey>, secret: Secret)
    requires Gapless(whole, secret) && part <= whole
    ensures Gapless(part, secret)
  {
    forall x | 0 <= x < |part|
      ensures part[x] == Outputs(secret, |part|)[x]
    {
      OutputsAt(secret, |whole|, x);
      OutputsAt(secret, |part|, x);
    }
  }

  ghost predicate GapFree(db: Db) {
    forall secret: Secret :: Gapless(Published(db.blocks, secret), secret)
  }

  ghost predicate RowsMadeWith(blocks: seq<BlockRow>, egress: set<EgressKey>) {
    forall i :: 0 <= i < |blocks| ==> MadeWith(blocks[i].records, egress)
  }

  lemma {:induction false} PublishedForeign(blocks: seq<BlockRow>, egress: set<EgressKey>, secret: Secret)
    requires RowsMadeWith(blocks, egress) && secret.egress !in egress
    ensures Published(blocks, secret) == []
  {
    if |blocks| > 0 {
      PublishedForeign(blocks[..|blocks| - 1], egress, secret);
      KeysOfForeign(blocks[|blocks| - 1].records, egress, secret);
    }
  }

  // ---- what a server may have pending ---------------------------------------------------------------

  function Pending(s: Server): seq<ETxOutRecord> {
    if s.pc.Scanning? || s.pc.Rotating? then s.pc.rows else []
  }

  /** The block in hand is already stored for this key, or the server is on its way to a fresh
      egress key: nothing it has drawn under the current one will be published any more. */
  ghost predicate Doomed(db: Db, s: Server) {
    || s.pc.GoingIdle? || s.pc.Rekeying?
    || (s.pc.Committed? && !s.pc.won)
    || ((s.pc.Scanning? || s.pc.Rotating?) && HasRow(db.blocks, s.enc.ingress, s.pc.block))
  }

  function Stream(db: Db, s: Server, secret: Secret): seq<SearchKey> {
    Published(db.blocks, secret) + KeysOf(Pending(s), secret)
  }

  /** Published and pending records of each rng of this server form one gapless stream, and the
      current egress key's counters say where it stands. */
  ghost predicate StreamsOk(db: Db, s: Server) {
    forall e: EgressKey, view: ViewKey {:trigger SharedSecret(e, view)} :: e in s.mine ==>
      var secret := SharedSecret(e, view);
      && Gapless(Stream(db, s, secret), secret)
      && (e == s.enc.egress ==> |Stream(db, s, secret)| == Drawn(s.enc, view))
  }

  /** Egress keys in use were announced to the clients by an invocation. */
  ghost predicate AnnouncedOk(db: Db, s: Server) {
    && (s.st.iid.Some? && s.st.iid.value < |db.invocations| && !s.pc.Rotating? ==>
          db.invocations[s.st.iid.value].egress == s.enc.egress)
    && (s.pc.Scanning? ==> MadeWith(s.pc.rows, EgressKeys(db.invocations)))
    && (s.pc.Rotating? ==>
          s.pc.egress == s.enc.egress && MadeWith(s.pc.rows, EgressKeys(db.invocations) + {s.enc.egress}))
  }

  ghost predicate RngOk(db: Db, s: Server) {
    !s.run.Down? ==>
      && s.enc.egress in s.mine
      && MadeWith(Pending(s), s.mine)
      && AnnouncedOk(db, s)
      && (!Doomed(db, s) ==> StreamsOk(db, s))
  }

  ghost predicate MineDisjoint(servers: seq<Server>) {
    forall i, j :: 0 <= i < |servers| && 0 <= j < |servers| && i != j ==> servers[i].mine !! servers[j].mine
  }

  ghost predicate RngInv(w: World) {
    && GapFree(w.db)
    && RowsMadeWith(w.db.blocks, w.issued)
    && RowsMadeWith(w.db.blocks, EgressKeys(w.db.invocations))
    && (forall i :: 0 <= i < |w.servers| ==> RngOk(w.db, w.servers[i]) && w.servers[i].mine <= w.issued)
    && MineDisjoint(w.servers)
  }

  predicate NoIngestFailure(step: Step) {
    !(step.By? && step.act.AIngestChunk? && step.act.outcome.IngestFailed?)
  }

  // ---- transactions ------------------------------------------------------------------------------------

  lemma EgressKeysGrow(db: Db, db': Db)
    requires Extends(db, db')
    ensures EgressKeys(db.invocations) <= EgressKeys(db'.invocations)
  {
    forall e | e in EgressKeys(db.invocations)
      ensures e in EgressKeys(db'.invocations)
    {
      var i :| 0 <= i < |db.invocations| && db.invocations[i].egress == e;
      assert db'.invocations[i].egress == e;
    }
  }

  lemma AnnouncedStable(db: Db, db': Db, s: Server)
    requires Extends(db, db') && Holds(db, s) && AnnouncedOk(db, s)
    ensures AnnouncedOk(db', s)
  {
    EgressKeysGrow(db, db');
  }

  lemma HasRowStays(blocks: seq<BlockRow>, blocks': seq<BlockRow>, key: IngressKey, block: nat)
    requires blocks <= blocks'
    ensures HasRow(blocks, key, block) ==> HasRow(blocks', key, block)
  {
    if HasRow(blocks, key, block) {
      var i :| 0 <= i < |blocks| && blocks[i].key == key && blocks[i].block == block;
      assert blocks'[i] == blocks[i];
    }
  }

  /** A transaction that adds no rows made with this server's egress keys leaves its streams alone. */
  lemma RngStable(db: Db, db': Db, s: Server, theirs: set<EgressKey>)
    requires Extends(db, db') && Holds(db, s) && RngOk(db, s)
    requires db'.blocks == db.blocks ||
             (|db'.blocks| == |db.blocks| + 1 && MadeWith(db'.blocks[|db.blocks|].records, theirs) && theirs !! s.mine)
    ensures RngOk(db', s)
  {
    if !s.run.Down? {
      AnnouncedStable(db, db', s);
      if !Doomed(db', s) {
        if s.pc.Scanning? || s.pc.Rotating? {
          HasRowStays(db.blocks, db'.blocks, s.enc.ingress, s.pc.block);
        }
        forall e: EgressKey, view: ViewKey | e in s.mine
          ensures Stream(db', s, SharedSecret(e, view)) == Stream(db, s, SharedSecret(e, view))
        {
          if db'.blocks != db.blocks {
            var row := db'.blocks[|db.blocks|];
            assert db'.blocks == db.blocks + [row];
            PublishedAppend(db.blocks, row, SharedSecret(e, view));
            KeysOfForeign(row.records, theirs, SharedSecret(e, view));
          }
        }
      }
    }
  }

  // ---- one server's own actions ---------------------------------------------------------------------------

  /** A server that starts over with a fresh egress key has empty streams. */
  lemma FreshStart(w: World, s': Server)
    requires RngInv(w) && s'.enc.egress !in w.issued && s'.mine == {s'.enc.egress} && s'.enc.counters == map[]
    requires Pending(s') == [] && s'.st.iid.None? && !s'.pc.Scanning? && !s'.pc.Rotating?
    ensures RngOk(w.db, s')
  {
    forall view: ViewKey
      ensures Stream(w.db, s', SharedSecret(s'.enc.egress, view)) == []
    {
      PublishedForeign(w.db.blocks, w.issued, SharedSecret(s'.enc.egress, view));
    }
  }

  lemma StreamGrows(db: Db, s: Server, s': Server, rows: seq<ETxOutRecord>, secret: Secret)
    requires Pending(s') == Pending(s) + rows
    ensures Stream(db, s', secret) == Stream(db, s, secret) + KeysOf(rows, secret)
  {
    KeysOfAppend(Pending(s), rows, secret);
    assert Published(db.blocks, secret) + (KeysOf(Pending(s), secret) + KeysOf(rows, secret))
        == (Published(db.blocks, secret) + KeysOf(Pending(s), secret)) + KeysOf(rows, secret);
  }

  lemma KeptStreams(db: Db, s: Server, s': Server, c: Chunk, strays: nat -> ViewKey)
    requires StreamsOk(db, s) && s'.mine == s.mine && s'.enc == Absorb(s.enc, c, strays).enclave
    requires Pending(s') == Pending(s) + Absorb(s.enc, c, strays).rows
    ensures StreamsOk(db, s')
  {
    var rows := Absorb(s.enc, c, strays).rows;
    forall e: EgressKey, view: ViewKey | e in s.mine
      ensures Gapless(Stream(db, s', SharedSecret(e, view)), SharedSecret(e, view))
      ensures e == s.enc.egress ==> |Stream(db, s', SharedSecret(e, view))| == Drawn(s'.enc, view)
    {
      var secret := SharedSecret(e, view);
      StreamGrows(db, s, s', rows, secret);
      assert Gapless(Stream(db, s, secret), secret);
      AbsorbDraws(s.enc, c, strays, view);
      if e != s.enc.egress {
        KeysOfForeign(rows, {s.enc.egress}, secret);
      }
    }
  }

  lemma KeptServer(db: Db, b: Block, s: Server, strays: nat -> ViewKey)
    requires RngOk(db, s) && Holds(db, s) && !s.run.Down? && s.pc.Scanning?
    requires |b.outputs| <= b.cumulativeTxoCount && s.pc.pos <= |b.outputs|
    ensures RngOk(db, IngestChunk(b, s, IngestProtocol.Kept, strays))
  {
    var s' := IngestChunk(b, s, IngestProtocol.Kept, strays);
    var c := ChunkAt(b, s.pc.block, s.pc.timestamp, s.pc.pos, s.cfg.maxTransactions);
    AbsorbDraws(s.enc, c, strays, 0);
    assert s.enc.egress in EgressKeys(db.invocations);
    if !Doomed(db, s) {
      KeptStreams(db, s, s', c, strays);
    }
  }

  /** Absorbing a chunk without rotation extends every user's stream under the current egress key. */
  lemma KeptChunk(w: World, i: ServerId, strays: nat -> ViewKey)
    requires Inv(w) && RngInv(w) && i < |w.servers|
    requires ActEnabled(w, i, AIngestChunk(IngestProtocol.Kept, strays))
    ensures RngOk(w.db, Act(w, i, AIngestChunk(IngestProtocol.Kept, strays)).server)
  {
    var s := w.servers[i];
    assert RngOk(w.db, s) && Holds(w.db, s);
    KeptServer(w.db, w.ledger[s.pc.block], s, strays);
  }

  lemma RotatedStreams(db: Db, issued: set<EgressKey>, s: Server, s': Server, e0: Enclave, c: Chunk,
                       strays: nat -> ViewKey)
    requires StreamsOk(db, s) && MadeWith(Pending(s), s.mine) && RowsMadeWith(db.blocks, issued)
    requires s.mine <= issued && e0.egress !in issued && e0.counters == map[]
    requires s'.mine == s.mine + {e0.egress} && s'.enc == Absorb(e0, c, strays).enclave
    requires Pending(s') == Pending(s) + Absorb(e0, c, strays).rows
    ensures StreamsOk(db, s')
  {
    var rows := Absorb(e0, c, strays).rows;
    forall e: EgressKey, view: ViewKey | e in s'.mine
      ensures Gapless(Stream(db, s', SharedSecret(e, view)), SharedSecret(e, view))
      ensures e == e0.egress ==> |Stream(db, s', SharedSecret(e, view))| == Drawn(s'.enc, view)
    {
      var secret := SharedSecret(e, view);
      StreamGrows(db, s, s', rows, secret);
      AbsorbDraws(e0, c, strays, view);
      if e == e0.egress {
        PublishedForeign(db.blocks, issued, secret);
        KeysOfForeign(Pending(s), s.mine, secret);
        assert Stream(db, s', secret) == [] + KeysOf(rows, secret);
      } else {
        KeysOfForeign(rows, {e0.egress}, secret);
      }
    }
  }

  /** After a rotation the rows drawn before it stay gapless under the old key, and the chunk's rows
      are the first outputs under the new one. */
  lemma RotatedChunk(w: World, i: ServerId, egress: EgressKey, strays: nat -> ViewKey)
    requires Inv(w) && RngInv(w) && i < |w.servers| && egress !in w.issued
    requires ActEnabled(w, i, AIngestChunk(Rotated(egress), strays))
    ensures RngOk(w.db, Act(w, i, AIngestChunk(Rotated(egress), strays)).server)
  {
    var s := w.servers[i];
    var s' := Act(w, i, AIngestChunk(Rotated(egress), strays)).server;
    assert RngOk(w.db, s) && Holds(w.db, s) && s.mine <= w.issued;
    var c := ChunkAt(w.ledger[s.pc.block], s.pc.block, s.pc.timestamp, s.pc.pos, s.cfg.maxTransactions);
    var e0 := Enclave(s.enc.ingress, egress, map[]);
    AbsorbDraws(e0, c, strays, 0);
    if !Doomed(w.db, s) {
      RotatedStreams(w.db, w.issued, s, s', e0, c, strays);
    }
  }

  /** Appending a server's pending rows publishes exactly its streams and nobody else's. */
  lemma RowPublishes(db: Db, db': Db, s: Server, row: BlockRow)
    requires GapFree(db) && StreamsOk(db, s) && s.pc.Scanning? && MadeWith(s.pc.rows, s.mine)
    requires db'.blocks == db.blocks + [row] && row.records == s.pc.rows
    ensures GapFree(db')
    ensures forall e: EgressKey, view: ViewKey :: e in s.mine ==>
              Published(db'.blocks, SharedSecret(e, view)) == Stream(db, s, SharedSecret(e, view))
  {
    forall secret: Secret
      ensures Gapless(Published(db'.blocks, secret), secret)
      ensures secret.egress in s.mine ==> Published(db'.blocks, secret) == Stream(db, s, secret)
    {
      PublishedAppend(db.blocks, row, secret);
      assert Gapless(Published(db.blocks, secret), secret);
      if secret.egress in s.mine {
        assert secret == SharedSecret(secret.egress, secret.view);
      } else {
        KeysOfForeign(s.pc.rows, s.mine, secret);
      }
    }
  }

  lemma StreamsCommitted(db: Db, db': Db, s: Server, s': Server)
    requires StreamsOk(db, s)
    requires forall e: EgressKey, view: ViewKey :: e in s.mine ==>
               Published(db'.blocks, SharedSecret(e, view)) == Stream(db, s, SharedSecret(e, view))
    requires s'.mine == s.mine && s'.enc == s.enc && Pending(s') == []
    ensures StreamsOk(db', s')
  {
    forall e: EgressKey, view: ViewKey | e in s'.mine
      ensures Stream(db', s', SharedSecret(e, view)) == Stream(db, s, SharedSecret(e, view))
    {
      var p := Published(db'.blocks, SharedSecret(e, view));
      assert p + [] == p;
    }
  }

  /** What an attempt to commit does: nothing, or the server learns how it went; a row that is added is
      the first for its block and holds the pending records. */
  ghost predicate CommitShape(db: Db, db': Db, s: Server, s': Server) {
    && s.pc.Scanning? && s'.mine == s.mine && s'.enc == s.enc && s'.st == s.st && s'.run == s.run
    && (s' == s || s'.pc.Committed?)
    && (db'.blocks == db.blocks ==> s' == s || !s'.pc.won)
    && (db'.blocks != db.blocks ==>
          && !HasRow(db.blocks, s.enc.ingress, s.pc.block)
          && |db'.blocks| == |db.blocks| + 1 && db'.blocks == db.blocks + [db'.blocks[|db.blocks|]]
          && db'.blocks[|db.blocks|].records == s.pc.rows
          && db'.blocks[|db.blocks|].key == s.enc.ingress && db'.blocks[|db.blocks|].block == s.pc.block)
  }

  lemma CommitHasShape(w: World, i: ServerId, out: Outcome)
    requires Inv(w) && i < |w.servers| && ActEnabled(w, i, AAddBlock(out))
    ensures CommitShape(w.db, Act(w, i, AAddBlock(out)).db, w.servers[i], Act(w, i, AAddBlock(out)).server)
  {
    var s := w.servers[i];
    assert Holds(w.db, s) && Placed(w.db, s);
    AlreadyScannedIff(w.db, s.st.iid.value, s.pc.block, w.ledger[s.pc.block].cumulativeTxoCount, s.pc.timestamp,
                      s.pc.rows);
  }

  lemma CommitShapeKeeps(db: Db, db': Db, s: Server, s': Server)
    requires Extends(db, db') && GapFree(db) && Holds(db, s) && RngOk(db, s) && !s.run.Down?
             && CommitShape(db, db', s, s')
    ensures RngOk(db', s') && GapFree(db')
  {
    AnnouncedStable(db, db', s);
    if db'.blocks != db.blocks {
      assert HasRow(db'.blocks, s.enc.ingress, s.pc.block);
      RowPublishes(db, db', s, db'.blocks[|db.blocks|]);
      if !Doomed(db', s') {
        StreamsCommitted(db, db', s, s');
      }
    }
  }

  /** Winning the race turns the pending rows into published ones. */
  lemma CommittedBlock(w: World, i: ServerId, out: Outcome)
    requires Inv(w) && RngInv(w) && i < |w.servers| && ActEnabled(w, i, AAddBlock(out))
    ensures var r := Act(w, i, AAddBlock(out));
            RngOk(r.db, r.server) && GapFree(r.db)
  {
    assert RngOk(w.db, w.servers[i]) && Holds(w.db, w.servers[i]);
    ActIsOp(w, i, AAddBlock(out));
    ApplyExtends(w.db, ActOp(w, i, AAddBlock(out)));
    CommitHasShape(w, i, out);
    CommitShapeKeeps(w.db, Act(w, i, AAddBlock(out)).db, w.servers[i], Act(w, i, AAddBlock(out)).server);
  }
}
