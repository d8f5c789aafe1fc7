/**
 * When a gap appears, over all runs, with failed ingests or without. Whatever happens, the rows a server has
 * pending are consecutive outputs of each rng. The database stays without gaps exactly as long as no server
 * commits rows of an rng that do not start where the stored ones end.
 */
module DrawOrder {
  import opened Prelude
  import opened FogView
  import opened RecoveryTables
  import opened TableLaws
  import opened IngestEnclave
  import opened ControllerState
  import opened IngestProtocol
  import opened Contiguity
  import opened ContiguityRuns
  import opened ProtocolTheorems
  import opened RngStreams
  import opened RngRuns

  /** Outputs d, d + 1, ... of an rng. */
  ghost predicate Consecutive(keys: seq<SearchKey>, secret: Secret, d: nat) {
    forall x :: 0 <= x < |keys| ==> keys[x] == Output(secret, d + x)
  }

  /** The server's pending rows of this rng begin with output d. No more is stored than was drawn, and nothing
      pending is stored, except by the server's own commit that it has not heard of. */
  ghost predicate PendingFrom(db: Db, s: Server, secret: Secret, d: nat) {
    var keys, stored := KeysOf(Pending(s), secret), |Published(db.blocks, secret)|;
    && Consecutive(keys, secret, d)
    && stored <= d + |keys|
    && (!Doomed(db, s) ==> stored <= d)
    && (secret.egress == s.enc.egress ==> d + |keys| == Drawn(s.enc, secret.view))
  }

  ghost predicate InOrder(db: Db, s: Server, secret: Secret) {
    exists d: nat :: PendingFrom(db, s, secret, d)
  }

  ghost predicate AllInOrder(db: Db, s: Server) {
    forall secret: Secret :: secret.egress in s.mine ==> InOrder(db, s, secret)
  }

  ghost predicate DrawsOk(db: Db, s: Server) {
    !s.run.Down? ==> s.enc.egress in s.mine && MadeWith(Pending(s), s.mine) && AllInOrder(db, s)
  }

  ghost predicate DrawInv(w: World) {
    && RowsMadeWith(w.db.blocks, w.issued)
    && (forall i :: 0 <= i < |w.servers| ==> DrawsOk(w.db, w.servers[i]) && w.servers[i].mine <= w.issued)
    && MineDisjoint(w.servers)
  }

  // ---- what keeps the order --------------------------------------------------------------------------------------

  /** The rngs are where they were, and a server that was doomed still is. */
  lemma SameOrder(db: Db, db': Db, s: Server, s': Server)
    requires AllInOrder(db, s) && db'.blocks == db.blocks && s'.mine == s.mine && Pending(s') == Pending(s)
    requires s'.enc.egress == s.enc.egress && s'.enc.counters == s.enc.counters && (Doomed(db, s) ==> Doomed(db', s'))
    ensures AllInOrder(db', s')
  {
    forall secret: Secret | secret.egress in s'.mine
      ensures InOrder(db', s', secret)
    {
      assert InOrder(db, s, secret);
      var d: nat :| PendingFrom(db, s, secret, d);
      assert PendingFrom(db', s', secret, d);
    }
  }

  /** Rows of others leave our rngs alone. */
  lemma OthersKeepOrder(db: Db, db': Db, s: Server, theirs: set<EgressKey>)
    requires Extends(db, db') && AllInOrder(db, s)
    requires db'.blocks == db.blocks ||
             (|db'.blocks| == |db.blocks| + 1 && MadeWith(db'.blocks[|db.blocks|].records, theirs) && theirs !! s.mine)
    ensures AllInOrder(db', s)
  {
    if s.pc.Scanning? || s.pc.Rotating? {
      HasRowStays(db.blocks, db'.blocks, s.enc.ingress, s.pc.block);
    }
    forall secret: Secret | secret.egress in s.mine
      ensures InOrder(db', s, secret)
    {
      assert InOrder(db, s, secret);
      var d: nat :| PendingFrom(db, s, secret, d);
      if db'.blocks != db.blocks {
        var row := db'.blocks[|db.blocks|];
        assert db'.blocks == db.blocks + [row];
        PublishedAppend(db.blocks, row, secret);
        KeysOfForeign(row.records, theirs, secret);
      }
      assert PendingFrom(db', s, secret, d);
    }
  }

  /** A server that starts over has drawn nothing. */
  lemma FreshOrder(db: Db, issued: set<EgressKey>, s': Server)
    requires RowsMadeWith(db.blocks, issued) && s'.enc.egress !in issued && s'.mine == {s'.enc.egress}
    requires s'.enc.counters == map[] && Pending(s') == []
    ensures AllInOrder(db, s')
  {
    forall secret: Secret | secret.egress in s'.mine
      ensures InOrder(db, s', secret)
    {
      PublishedForeign(db.blocks, issued, secret);
      assert PendingFrom(db, s', secret, 0);
    }
  }

  /** Drawing goes on where it stopped. */
  lemma ConsecutiveGrows(secret: Secret, keys: seq<SearchKey>, d: nat, more: seq<SearchKey>, n: nat)
    requires Consecutive(keys, secret, d) && Outputs(secret, d + |keys|) + more == Outputs(secret, n)
    ensures Consecutive(keys + more, secret, d) && d + |keys + more| == n
  {
    forall x | 0 <= x < |more|
      ensures more[x] == Output(secret, d + |keys| + x)
    {
      assert (Outputs(secret, d + |keys|) + more)[d + |keys| + x] == more[x];
      OutputsAt(secret, n, d + |keys| + x);
    }
  }

  lemma KeptFrom(db: Db, s: Server, s': Server, rows: seq<ETxOutRecord>, secret: Secret, d: nat)
    requires PendingFrom(db, s, secret, d) && s'.enc.egress == s.enc.egress && (Doomed(db, s) ==> Doomed(db, s'))
    requires Pending(s') == Pending(s) + rows && Continues(s.enc, rows, s'.enc, secret.view)
    ensures PendingFrom(db, s', secret, d)
  {
    KeysOfAppend(Pending(s), rows, secret);
    if secret.egress == s.enc.egress {
      assert secret == SharedSecret(s.enc.egress, secret.view);
      ConsecutiveGrows(secret, KeysOf(Pending(s), secret), d, KeysOf(rows, secret), Drawn(s'.enc, secret.view));
    } else {
      KeysOfForeign(rows, {s.enc.egress}, secret);
    }
  }

  lemma KeptOrder(db: Db, s: Server, s': Server, c: Chunk, strays: nat -> ViewKey)
    requires AllInOrder(db, s) && s'.mine == s.mine && s'.enc == Absorb(s.enc, c, strays).enclave
    requires Pending(s') == Pending(s) + Absorb(s.enc, c, strays).rows && (Doomed(db, s) ==> Doomed(db, s'))
    ensures AllInOrder(db, s')
  {
    var rows := Absorb(s.enc, c, strays).rows;
    forall secret: Secret | secret.egress in s'.mine
      ensures InOrder(db, s', secret)
    {
      assert InOrder(db, s, secret);
      var d: nat :| PendingFrom(db, s, secret, d);
      AbsorbDraws(s.enc, c, strays, secret.view);
      KeptFrom(db, s, s', rows, secret, d);
    }
  }

  lemma RotatedOrder(db: Db, issued: set<EgressKey>, s: Server, s': Server, e0: Enclave, c: Chunk,
                     strays: nat -> ViewKey)
    requires AllInOrder(db, s) && MadeWith(Pending(s), s.mine) && RowsMadeWith(db.blocks, issued) && s.mine <= issued
    requires e0.egress !in issued && e0.counters == map[] && s'.mine == s.mine + {e0.egress}
    requires s'.enc == Absorb(e0, c, strays).enclave && Pending(s') == Pending(s) + Absorb(e0, c, strays).rows
    requires Doomed(db, s) ==> Doomed(db, s')
    ensures AllInOrder(db, s')
  {
    var rows := Absorb(e0, c, strays).rows;
    forall secret: Secret | secret.egress in s'.mine
      ensures InOrder(db, s', secret)
    {
      KeysOfAppend(Pending(s), rows, secret);
      AbsorbDraws(e0, c, strays, secret.view);
      if secret.egress == e0.egress {
        PublishedForeign(db.blocks, issued, secret);
        KeysOfForeign(Pending(s), s.mine, secret);
        ConsecutiveGrows(secret, [], 0, KeysOf(rows, secret), Drawn(s'.enc, secret.view));
        assert [] + KeysOf(rows, secret) == KeysOf(rows, secret);
        assert PendingFrom(db, s', secret, 0);
      } else {
        assert InOrder(db, s, secret);
        var d: nat :| PendingFrom(db, s, secret, d);
        KeysOfForeign(rows, {e0.egress}, secret);
        assert PendingFrom(db, s', secret, d);
      }
    }
  }

  /** A failed ingest drops what is pending and goes on from wherever the enclave stopped. */
  lemma FailedOrder(db: Db, issued: set<EgressKey>, s: Server, s': Server)
    requires AllInOrder(db, s) && RowsMadeWith(db.blocks, issued) && s.enc.egress in s.mine
    requires s'.mine == s.mine + {s'.enc.egress} && Pending(s') == []
    requires s'.enc.egress in issued ==> s'.enc.egress == s.enc.egress
    requires s'.enc.egress == s.enc.egress ==> forall v :: v in s.enc.counters ==> s.enc.counters[v] <= Drawn(s'.enc, v)
    ensures AllInOrder(db, s')
  {
    forall secret: Secret | secret.egress in s'.mine
      ensures InOrder(db, s', secret)
    {
      if secret.egress !in issued {
        PublishedForeign(db.blocks, issued, secret);
      } else {
        assert InOrder(db, s, secret);
        var d: nat :| PendingFrom(db, s, secret, d);
      }
      var d := if secret.egress == s'.enc.egress then Drawn(s'.enc, secret.view) else |Published(db.blocks, secret)|;
      assert PendingFrom(db, s', secret, d);
    }
  }

  lemma CommitFrom(db: Db, db': Db, s: Server, s': Server, secret: Secret, d: nat)
    requires CommitShape(db, db', s, s') && PendingFrom(db, s, secret, d)
    ensures PendingFrom(db', s', secret, if s' == s then d else d + |KeysOf(Pending(s), secret)|)
  {
    if db'.blocks != db.blocks {
      PublishedAppend(db.blocks, db'.blocks[|db.blocks|], secret);
      assert HasRow(db'.blocks, s.enc.ingress, s.pc.block);
    }
  }

  /** Committing turns pending rows into stored ones, or drops them. */
  lemma CommitOrder(db: Db, db': Db, s: Server, s': Server)
    requires CommitShape(db, db', s, s') && AllInOrder(db, s)
    ensures AllInOrder(db', s')
  {
    forall secret: Secret | secret.egress in s'.mine
      ensures InOrder(db', s', secret)
    {
      assert InOrder(db, s, secret);
      var d: nat :| PendingFrom(db, s, secret, d);
      CommitFrom(db, db', s, s', secret, d);
    }
  }

  // ---- every step keeps it -----------------------------------------------------------------------------------------

  lemma ChunkKeepsOrder(w: World, i: ServerId, act: Action)
    requires Inv(w) && DrawInv(w) && Enabled(w, By(i, act)) && act.AIngestChunk?
    ensures DrawsOk(w.db, Act(w, i, act).server)
  {
    var s, s' := w.servers[i], Act(w, i, act).server;
    assert DrawsOk(w.db, s) && s.mine <= w.issued;
    var c := ChunkAt(w.ledger[s.pc.block], s.pc.block, s.pc.timestamp, s.pc.pos, s.cfg.maxTransactions);
    match act.outcome
    case Kept =>
      AbsorbDraws(s.enc, c, act.strays, 0);
      KeptOrder(w.db, s, s', c, act.strays);
    case Rotated(egress) =>
      AbsorbDraws(Enclave(s.enc.ingress, egress, map[]), c, act.strays, 0);
      RotatedOrder(w.db, w.issued, s, s', Enclave(s.enc.ingress, egress, map[]), c, act.strays);
    case IngestFailed(after) => FailedOrder(w.db, w.issued, s, s');
  }

  lemma QuietKeepsOrder(w: World, i: ServerId, act: Action)
    requires Inv(w) && DrawInv(w) && Enabled(w, By(i, act)) && Quiet(act)
    ensures DrawsOk(Act(w, i, act).db, Act(w, i, act).server)
  {
    if !act.ACrash? {
      QuietHasShape(w, i, act);
      assert DrawsOk(w.db, w.servers[i]) && Placed(w.db, w.servers[i]);
      if !w.servers[i].run.Down? {
        SameOrder(w.db, Act(w, i, act).db, w.servers[i], Act(w, i, act).server);
      }
    }
  }

  lemma CommitKeepsOrder(w: World, i: ServerId, act: Action)
    requires Inv(w) && DrawInv(w) && Enabled(w, By(i, act)) && act.AAddBlock?
    ensures DrawsOk(Act(w, i, act).db, Act(w, i, act).server)
  {
    assert DrawsOk(w.db, w.servers[i]);
    CommitHasShape(w, i, act.out);
    CommitOrder(w.db, Act(w, i, act).db, w.servers[i], Act(w, i, act).server);
  }

  lemma RotationKeepsOrder(w: World, i: ServerId, act: Action)
    requires Inv(w) && DrawInv(w) && Enabled(w, By(i, act)) && act.ARecordRotation?
    ensures DrawsOk(Act(w, i, act).db, Act(w, i, act).server)
  {
    assert DrawsOk(w.db, w.servers[i]);
    RotationHasShape(w, i, act);
    SameOrder(w.db, Act(w, i, act).db, w.servers[i], Act(w, i, act).server);
  }

  lemma TakeKeepsOrder(w: World, i: ServerId, act: Action)
    requires Inv(w) && DrawInv(w) && Enabled(w, By(i, act)) && act.ATakeInvocation?
    ensures DrawsOk(Act(w, i, act).db, Act(w, i, act).server)
  {
    var r := Act(w, i, act);
    assert DrawsOk(w.db, w.servers[i]);
    if !r.server.run.Down? {
      SameOrder(w.db, r.db, w.servers[i], r.server);
    }
  }

  lemma FreshKeepsOrder(w: World, i: ServerId, act: Action)
    requires Inv(w) && DrawInv(w) && Enabled(w, By(i, act)) && (act.ANewKeys? || act.ARekey? || act.AStartUp?)
    ensures DrawsOk(Act(w, i, act).db, Act(w, i, act).server)
  {
    assert Placed(w.db, w.servers[i]);
    FreshOrder(w.db, w.issued, Act(w, i, act).server);
  }

  lemma ActKeepsOrder(w: World, i: ServerId, act: Action)
    requires Inv(w) && DrawInv(w) && Enabled(w, By(i, act))
    ensures DrawsOk(Act(w, i, act).db, Act(w, i, act).server)
  {
    if Quiet(act) {
      QuietKeepsOrder(w, i, act);
    } else {
      LoudKeepsOrder(w, i, act);
    }
  }

  lemma LoudKeepsOrder(w: World, i: ServerId, act: Action)
    requires Inv(w) && DrawInv(w) && Enabled(w, By(i, act)) && !Quiet(act)
    ensures DrawsOk(Act(w, i, act).db, Act(w, i, act).server)
  {
    if act.AIngestChunk? {
      ChunkKeepsOrder(w, i, act);
    } else if act.AAddBlock? {
      CommitKeepsOrder(w, i, act);
    } else if act.ARecordRotation? {
      RotationKeepsOrder(w, i, act);
    } else if act.ATakeInvocation? {
      TakeKeepsOrder(w, i, act);
    } else {
      FreshKeepsOrder(w, i, act);
    }
  }

  /** A stored row is the server's own. */
  lemma ActStoresOwn(w: World, i: ServerId, act: Action)
    requires Inv(w) && DrawInv(w) && Enabled(w, By(i, act))
    ensures var db' := Act(w, i, act).db;
            && Extends(w.db, db') && RowsMadeWith(db'.blocks, w.issued)
            && (db'.blocks == w.db.blocks ||
                (|db'.blocks| == |w.db.blocks| + 1 && MadeWith(db'.blocks[|w.db.blocks|].records, w.servers[i].mine)))
  {
    assert DrawsOk(w.db, w.servers[i]) && Placed(w.db, w.servers[i]) && w.servers[i].mine <= w.issued;
    ActStores(w, i, act);
    ActIsOp(w, i, act);
    ApplyExtends(w.db, ActOp(w, i, act));
    var db' := Act(w, i, act).db;
    assert forall r :: 0 <= r < |w.db.blocks| ==> db'.blocks[r] == w.db.blocks[r];
  }

  lemma ActDrawsOwn(w: World, i: ServerId, act: Action)
    requires Inv(w) && DrawInv(w) && Enabled(w, By(i, act))
    ensures var s', drawn := Act(w, i, act).server, FreshEgress(w.servers[i], act);
            s'.mine <= w.servers[i].mine + (if drawn.Some? then {drawn.value} else {})
  {
    assert DrawsOk(w.db, w.servers[i]) && Placed(w.db, w.servers[i]);
  }

  lemma ActStepKeepsOrder(w: World, i: ServerId, act: Action)
    requires Inv(w) && DrawInv(w) && Enabled(w, By(i, act))
    ensures DrawInv(Apply(w, By(i, act)))
  {
    var w', r := Apply(w, By(i, act)), Act(w, i, act);
    var drawn := FreshEgress(w.servers[i], act);
    ActKeepsOrder(w, i, act);
    ActStoresOwn(w, i, act);
    ActDrawsOwn(w, i, act);
    MineStaysDisjoint(w, i, r.server, if drawn.Some? then {drawn.value} else {});
    forall j | 0 <= j < |w.servers|
      ensures DrawsOk(w'.db, w'.servers[j]) && w'.servers[j].mine <= w'.issued
    {
      assert DrawsOk(w.db, w.servers[j]) && w.servers[j].mine <= w.issued;
      if j != i && !w.servers[j].run.Down? {
        OthersKeepOrder(w.db, r.db, w.servers[j], w.servers[i].mine);
      }
    }
  }

  lemma OperatorKeepsOrder(w: World, op: DbOp)
    requires DrawInv(w) && IsOperatorOp(op)
    ensures DrawInv(w.(db := DbApply(w.db, op)))
  {
    ApplyExtends(w.db, op);
    forall j | 0 <= j < |w.servers|
      ensures DrawsOk(DbApply(w.db, op), w.servers[j])
    {
      assert DrawsOk(w.db, w.servers[j]);
      if !w.servers[j].run.Down? {
        OthersKeepOrder(w.db, DbApply(w.db, op), w.servers[j], {});
      }
    }
  }

  lemma StepKeepsOrder(w: World, step: Step)
    requires Inv(w) && DrawInv(w) && Enabled(w, step)
    ensures DrawInv(Apply(w, step))
  {
    match step
    case LedgerGrows(_) =>
    case Operator(op) => OperatorKeepsOrder(w, op);
    case By(i, act) => ActStepKeepsOrder(w, i, act);
  }

  /** In every run, whatever fails in it, every server's pending rows are consecutive outputs of each rng, and
      no more of an rng is stored than was drawn. */
  lemma {:induction false} RunDrawsInOrder(t: Trace, n: nat)
    requires IsRun(t) && n < |t.worlds|
    ensures DrawInv(t.worlds[n])
  {
    if n > 0 {
      RunDrawsInOrder(t, n - 1);
      RunInv(t, n - 1);
      StepKeepsOrder(t.worlds[n - 1], t.steps[n - 1]);
    }
  }

  // ---- when a gap appears -----------------------------------------------------------------------------------------

  /** The server's pending rows of this rng do not start where the stored ones end. */
  ghost predicate OutOfStep(db: Db, s: Server, secret: Secret) {
    var keys := KeysOf(Pending(s), secret);
    keys != [] && keys[0] != Output(secret, |Published(db.blocks, secret)|)
  }

  /** Step n stores a block in which some rng is out of step. */
  ghost predicate CommitsOutOfStep(t: Trace, n: nat)
    requires IsRun(t) && n < |t.steps|
  {
    && t.steps[n].By? && t.steps[n].act.AAddBlock? && t.worlds[n + 1].db.blocks != t.worlds[n].db.blocks
    && exists secret: Secret :: OutOfStep(t.worlds[n].db, t.worlds[n].servers[t.steps[n].id], secret)
  }

  /** Outputs repeat with the period of the counter. */
  lemma SameFrom(secret: Secret, a: nat, b: nat, x: nat)
    requires Output(secret, a) == Output(secret, b)
    ensures Output(secret, a + x) == Output(secret, b + x)
  {
    WrappedStep(a, x);
    WrappedStep(b, x);
  }

  lemma GaplessIff(secret: Secret, stored: seq<SearchKey>, keys: seq<SearchKey>, d: nat)
    requires Gapless(stored, secret) && Consecutive(keys, secret, d)
    ensures Gapless(stored + keys, secret) <==> keys == [] || keys[0] == Output(secret, |stored|)
  {
    var all, n := stored + keys, |stored| + |keys|;
    if keys == [] {
      assert all == stored;
    } else {
      assert all[|stored|] == keys[0];
      OutputsAt(secret, n, |stored|);
      if keys[0] == Output(secret, |stored|) {
        forall x | 0 <= x < n
          ensures all[x] == Outputs(secret, n)[x]
        {
          OutputsAt(secret, n, x);
          if x < |stored| {
            OutputsAt(secret, |stored|, x);
          } else {
            SameFrom(secret, d, |stored|, x - |stored|);
          }
        }
      }
    }
  }

  lemma CommitGapIff(db: Db, db': Db, s: Server, s': Server)
    requires GapFree(db) && AllInOrder(db, s) && MadeWith(Pending(s), s.mine) && CommitShape(db, db', s, s')
    requires db'.blocks != db.blocks
    ensures GapFree(db') <==> forall secret: Secret :: !OutOfStep(db, s, secret)
  {
    forall secret: Secret
      ensures Gapless(Published(db'.blocks, secret), secret) <==> !OutOfStep(db, s, secret)
    {
      PublishedAppend(db.blocks, db'.blocks[|db.blocks|], secret);
      assert Gapless(Published(db.blocks, secret), secret);
      if secret.egress in s.mine {
        assert InOrder(db, s, secret);
        var d: nat :| PendingFrom(db, s, secret, d);
        GaplessIff(secret, Published(db.blocks, secret), KeysOf(Pending(s), secret), d);
      } else {
        KeysOfForeign(Pending(s), s.mine, secret);
      }
    }
  }

  /** A step makes the first gap if and only if it commits out of step. */
  lemma StepGapIff(t: Trace, n: nat)
    requires IsRun(t) && n < |t.steps| && GapFree(t.worlds[n].db)
    ensures GapFree(t.worlds[n + 1].db) <==> !CommitsOutOfStep(t, n)
  {
    var w, step := t.worlds[n], t.steps[n];
    if step.By? && step.act.AAddBlock? {
      RunInv(t, n);
      RunDrawsInOrder(t, n);
      CommitHasShape(w, step.id, step.act.out);
      if t.worlds[n + 1].db.blocks != w.db.blocks {
        assert DrawsOk(w.db, w.servers[step.id]);
        CommitGapIff(w.db, t.worlds[n + 1].db, w.servers[step.id], Act(w, step.id, step.act).server);
      }
    } else {
      StepIsOp(w, step);
      assert t.worlds[n + 1].db.blocks == w.db.blocks;
    }
  }

  lemma {:induction false} PublishedGrows(blocks: seq<BlockRow>, blocks': seq<BlockRow>, secret: Secret)
    requires blocks <= blocks'
    ensures Published(blocks, secret) <= Published(blocks', secret)
    decreases |blocks'|
  {
    if |blocks| < |blocks'| {
      PublishedGrows(blocks, blocks'[..|blocks'| - 1], secret);
    } else {
      assert blocks == blocks';
    }
  }

  /** Gaps are never filled. */
  lemma GapsStay(t: Trace, m: nat, n: nat)
    requires IsRun(t) && m <= n < |t.worlds| && GapFree(t.worlds[n].db)
    ensures GapFree(t.worlds[m].db)
  {
    LaterWorldExtends(t, m, n);
    forall secret: Secret
      ensures Gapless(Published(t.worlds[m].db.blocks, secret), secret)
    {
      assert Gapless(Published(t.worlds[n].db.blocks, secret), secret);
      PublishedGrows(t.worlds[m].db.blocks, t.worlds[n].db.blocks, secret);
      PrefixGapless(Published(t.worlds[n].db.blocks, secret), Published(t.worlds[m].db.blocks, secret), secret);
    }
  }

  /** The exact condition, over all runs: the database has no gaps if and only if no step so far committed out
      of step. */
  lemma {:induction false} GapFreeIff(t: Trace, n: nat)
    requires IsRun(t) && n < |t.worlds|
    ensures GapFree(t.worlds[n].db) <==> forall m :: 0 <= m < n ==> !CommitsOutOfStep(t, m)
  {
    if n > 0 {
      GapFreeIff(t, n - 1);
      if GapFree(t.worlds[n].db) {
        GapsStay(t, n - 1, n);
      }
      if GapFree(t.worlds[n - 1].db) {
        StepGapIff(t, n - 1);
      }
    }
  }
}
