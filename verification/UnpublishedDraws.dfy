/**
 * What committing out of step comes down to: the rows of a user's rng are out of step with the stored ones
 * exactly if the enclave had, while the egress key of that rng was its current one, drawn outputs for the user
 * that were neither stored nor pending. That holds for rows made before a rotation in the same block as well.
 */
module UnpublishedDraws {
  import opened Prelude
  import opened RecoveryTables
  import opened TableLaws
  import opened IngestEnclave
  import opened IngestProtocol
  import opened Contiguity
  import opened ContiguityRuns
  import opened RngStreams
  import opened RngRuns
  import opened DrawOrder

  /** A server that is up, with rows of this rng pending that may still be stored. */
  ghost predicate Holding(db: Db, s: Server, secret: Secret) {
    !s.run.Down? && !Doomed(db, s) && KeysOf(Pending(s), secret) != []
  }

  /** Neither what is pending nor what is stored of this rng has changed. */
  ghost predicate SameRows(db: Db, s: Server, db': Db, s': Server, secret: Secret) {
    && KeysOf(Pending(s), secret) == KeysOf(Pending(s'), secret)
    && Published(db.blocks, secret) == Published(db'.blocks, secret)
  }

  lemma {:induction false} KeysAreMade(rows: seq<ETxOutRecord>, egress: set<EgressKey>, secret: Secret)
    requires MadeWith(rows, egress) && KeysOf(rows, secret) != []
    ensures secret.egress in egress
  {
    if secret.egress !in egress {
      KeysOfForeign(rows, egress, secret);
    }
  }

  /** Rows of others change nothing. */
  lemma OthersLeave(db: Db, db': Db, s: Server, theirs: set<EgressKey>, secret: Secret)
    requires Extends(db, db') && Holding(db', s, secret) && MadeWith(Pending(s), s.mine)
    requires db'.blocks == db.blocks ||
             (|db'.blocks| == |db.blocks| + 1 && MadeWith(db'.blocks[|db.blocks|].records, theirs) && theirs !! s.mine)
    ensures Holding(db, s, secret) && SameRows(db, s, db', s, secret)
  {
    KeysAreMade(Pending(s), s.mine, secret);
    HasRowStays(db.blocks, db'.blocks, s.enc.ingress, if s.pc.Scanning? || s.pc.Rotating? then s.pc.block else 0);
    if db'.blocks != db.blocks {
      var row := db'.blocks[|db.blocks|];
      assert db'.blocks == db.blocks + [row];
      PublishedAppend(db.blocks, row, secret);
      KeysOfForeign(row.records, theirs, secret);
    }
  }

  /** A chunk adds only rows made with the egress key it leaves as the current one. */
  lemma ChunkLeaves(w: World, i: nat, act: Action, secret: Secret)
    requires Enabled(w, By(i, act)) && act.AIngestChunk?
    requires Holding(w.db, Act(w, i, act).server, secret) && secret.egress != Act(w, i, act).server.enc.egress
    ensures Holding(w.db, w.servers[i], secret) && SameRows(w.db, w.servers[i], w.db, Act(w, i, act).server, secret)
    ensures w.servers[i].enc.egress == Act(w, i, act).server.enc.egress || act.outcome.Rotated?
  {
    var s := w.servers[i];
    var c := ChunkAt(w.ledger[s.pc.block], s.pc.block, s.pc.timestamp, s.pc.pos, s.cfg.maxTransactions);
    var e := if act.outcome.Rotated? then Enclave(s.enc.ingress, act.outcome.egress, map[]) else s.enc;
    var rows := Absorb(e, c, act.strays).rows;
    AbsorbDraws(e, c, act.strays, 0);
    KeysOfForeign(rows, {e.egress}, secret);
    KeysOfAppend(Pending(s), rows, secret);
  }

  /** A commit that stores the rows or drops them leaves none that may still be stored. */
  lemma CommitLeaves(w: World, i: nat, act: Action, secret: Secret)
    requires Inv(w) && Enabled(w, By(i, act)) && act.AAddBlock?
    requires Holding(Act(w, i, act).db, Act(w, i, act).server, secret)
    ensures Act(w, i, act).server == w.servers[i] && Act(w, i, act).db.blocks == w.db.blocks
  {
    var s, r := w.servers[i], Act(w, i, act);
    CommitHasShape(w, i, act.out);
    if r.db.blocks != w.db.blocks {
      assert HasRow(r.db.blocks, s.enc.ingress, s.pc.block);
    }
  }

  lemma OtherActsLeave(w: World, i: nat, act: Action, secret: Secret)
    requires Inv(w) && Enabled(w, By(i, act)) && !act.AIngestChunk? && !act.AAddBlock?
    requires Holding(Act(w, i, act).db, Act(w, i, act).server, secret)
    ensures Holding(w.db, w.servers[i], secret)
    ensures SameRows(w.db, w.servers[i], Act(w, i, act).db, Act(w, i, act).server, secret)
    ensures w.servers[i].enc.egress == Act(w, i, act).server.enc.egress
  {
    if Quiet(act) && !act.ACrash? {
      QuietHasShape(w, i, act);
      assert Placed(w.db, w.servers[i]);
    } else if act.ARecordRotation? {
      RotationHasShape(w, i, act);
    }
  }

  /** The enclave replaces its egress key while it takes a chunk. */
  predicate Rotates(step: Step, i: nat) {
    step.By? && step.id == i && step.act.AIngestChunk? && step.act.outcome.Rotated?
  }

  lemma OwnStepBack(w: World, i: nat, act: Action, secret: Secret)
    requires Inv(w) && Enabled(w, By(i, act))
    requires Holding(Act(w, i, act).db, Act(w, i, act).server, secret)
    requires secret.egress != Act(w, i, act).server.enc.egress
    ensures Holding(w.db, w.servers[i], secret)
    ensures SameRows(w.db, w.servers[i], Act(w, i, act).db, Act(w, i, act).server, secret)
    ensures w.servers[i].enc.egress == Act(w, i, act).server.enc.egress || Rotates(By(i, act), i)
  {
    if act.AIngestChunk? {
      ChunkLeaves(w, i, act, secret);
    } else if act.AAddBlock? {
      CommitLeaves(w, i, act, secret);
    } else {
      OtherActsLeave(w, i, act, secret);
    }
  }

  /** One step back: rows of an egress key that is no longer current were pending before, and nothing changed. */
  lemma StepBack(w: World, step: Step, i: nat, secret: Secret)
    requires Inv(w) && DrawInv(w) && Enabled(w, step) && i < |w.servers|
    requires Holding(Apply(w, step).db, Apply(w, step).servers[i], secret)
    requires secret.egress != Apply(w, step).servers[i].enc.egress
    ensures Holding(w.db, w.servers[i], secret)
    ensures SameRows(w.db, w.servers[i], Apply(w, step).db, Apply(w, step).servers[i], secret)
    ensures w.servers[i].enc.egress == Apply(w, step).servers[i].enc.egress || Rotates(step, i)
  {
    assert DrawsOk(w.db, w.servers[i]);
    match step
    case LedgerGrows(_) =>
    case Operator(op) =>
      ApplyExtends(w.db, op);
      OthersLeave(w.db, DbApply(w.db, op), w.servers[i], {}, secret);
    case By(j, act) =>
      if j != i {
        ActStoresOwn(w, j, act);
        OthersLeave(w.db, Act(w, j, act).db, w.servers[i], w.servers[j].mine, secret);
      } else {
        OwnStepBack(w, i, act, secret);
      }
  }

  lemma RunStepBack(t: Trace, n: nat, i: nat, secret: Secret)
    requires IsRun(t) && n < |t.steps| && i < |t.worlds[n + 1].servers|
    requires Holding(t.worlds[n + 1].db, t.worlds[n + 1].servers[i], secret)
    requires secret.egress != t.worlds[n + 1].servers[i].enc.egress
    ensures i < |t.worlds[n].servers| && Holding(t.worlds[n].db, t.worlds[n].servers[i], secret)
    ensures SameRows(t.worlds[n].db, t.worlds[n].servers[i], t.worlds[n + 1].db, t.worlds[n + 1].servers[i], secret)
    ensures t.worlds[n].servers[i].enc.egress == t.worlds[n + 1].servers[i].enc.egress || Rotates(t.steps[n], i)
  {
    RunInv(t, n);
    RunDrawsInOrder(t, n);
    StepBack(t.worlds[n], t.steps[n], i, secret);
  }

  /** Rows that are pending were made when their egress key was the current one, and since then neither they nor
      what is stored of their rng has changed. The key stopped being the current one by a rotation. */
  lemma {:induction false} WasCurrent(t: Trace, n: nat, i: nat, secret: Secret) returns (x: nat)
    requires IsRun(t) && n < |t.worlds| && i < |t.worlds[n].servers|
    requires Holding(t.worlds[n].db, t.worlds[n].servers[i], secret)
    ensures x <= n && i < |t.worlds[x].servers| && t.worlds[x].servers[i].enc.egress == secret.egress
    ensures Holding(t.worlds[x].db, t.worlds[x].servers[i], secret)
    ensures SameRows(t.worlds[x].db, t.worlds[x].servers[i], t.worlds[n].db, t.worlds[n].servers[i], secret)
    ensures x < n ==> Rotates(t.steps[x], i)
  {
    x := n;
    if t.worlds[n].servers[i].enc.egress != secret.egress {
      assert n > 0;
      RunStepBack(t, n - 1, i, secret);
      x := WasCurrent(t, n - 1, i, secret);
    }
  }

  lemma UnpublishedIff(db: Db, s: Server, secret: Secret, d: nat)
    requires PendingFrom(db, s, secret, d) && secret.egress == s.enc.egress && Holding(db, s, secret)
    requires Drawn(s.enc, secret.view) <= TWO64
    ensures OutOfStep(db, s, secret) <==>
            |Published(db.blocks, secret)| + |KeysOf(Pending(s), secret)| < Drawn(s.enc, secret.view)
  {
    assert Output(secret, d).counter == d;
    assert Output(secret, |Published(db.blocks, secret)|).counter == |Published(db.blocks, secret)|;
  }

  /** Committing rows of an rng is out of step if and only if, in the last world in which its egress key was the
      enclave's current one, the enclave had drawn outputs of it that were neither stored nor pending, and so
      never will be; before the counter wraps. That world is the one of the commit, or the one of the rotation
      within the block that replaced the egress key. */
  lemma OutOfStepIffUnpublished(t: Trace, n: nat, secret: Secret) returns (x: nat)
    requires IsRun(t) && n < |t.steps| && t.steps[n].By? && t.steps[n].act.AAddBlock?
    requires t.worlds[n + 1].db.blocks != t.worlds[n].db.blocks
    requires KeysOf(Pending(t.worlds[n].servers[t.steps[n].id]), secret) != []
    ensures x <= n && t.steps[n].id < |t.worlds[x].servers|
    ensures t.worlds[x].servers[t.steps[n].id].enc.egress == secret.egress
    ensures x < n ==> Rotates(t.steps[x], t.steps[n].id)
    ensures var db, s := t.worlds[x].db, t.worlds[x].servers[t.steps[n].id];
            && SameRows(db, s, t.worlds[n].db, t.worlds[n].servers[t.steps[n].id], secret)
            && (Drawn(s.enc, secret.view) <= TWO64 ==>
                  (OutOfStep(t.worlds[n].db, t.worlds[n].servers[t.steps[n].id], secret) <==>
                   |Published(db.blocks, secret)| + |KeysOf(Pending(s), secret)| < Drawn(s.enc, secret.view)))
  {
    var i := t.steps[n].id;
    RunInv(t, n);
    CommitHasShape(t.worlds[n], i, t.steps[n].act.out);
    x := WasCurrent(t, n, i, secret);
    RunDrawsInOrder(t, x);
    var db, s := t.worlds[x].db, t.worlds[x].servers[i];
    assert DrawsOk(db, s) && InOrder(db, s, secret);
    var d: nat :| PendingFrom(db, s, secret, d);
    if Drawn(s.enc, secret.view) <= TWO64 {
      UnpublishedIff(db, s, secret, d);
    }
  }
}
