/**
 * Each egress key serves one ingress key: all stored records made with it stand in rows of the same key.
 * An ingress key is imported only into an idle server, whose current egress key has published nothing.
 */
module EgressOwners {
  import opened RecoveryTables
  import opened IngestEnclave
  import opened ControllerState
  import opened IngestProtocol
  import opened Contiguity
  import opened ContiguityRuns
  import opened RngStreams
  import opened DrawOrder

  ghost predicate HasEgress(records: seq<ETxOutRecord>, e: EgressKey) {
    exists j :: 0 <= j < |records| && records[j].searchKey.secret.egress == e
  }

  ghost predicate OneKeyPerEgress(blocks: seq<BlockRow>) {
    forall r, r', e :: 0 <= r < |blocks| && 0 <= r' < |blocks|
                       && HasEgress(blocks[r].records, e) && HasEgress(blocks[r'].records, e) ==>
      blocks[r].key == blocks[r'].key
  }

  /** Idle and not on its way there: nothing has been drawn with the current egress key. */
  predicate Resting(s: Server) {
    s.st.mode.Idle? && !s.pc.GoingIdle? && !s.pc.Rekeying?
  }

  /** Rows made with the server's egress keys are of its ingress key; a resting server has none. */
  ghost predicate OwnRows(blocks: seq<BlockRow>, s: Server) {
    forall r, e :: 0 <= r < |blocks| && e in s.mine && HasEgress(blocks[r].records, e) ==>
      blocks[r].key == s.enc.ingress && !Resting(s)
  }

  ghost predicate OwnersInv(w: World) {
    OneKeyPerEgress(w.db.blocks) && forall i :: 0 <= i < |w.servers| ==> OwnRows(w.db.blocks, w.servers[i])
  }

  function Drawn1(s: Server, act: Action): set<EgressKey> {
    if FreshEgress(s, act).Some? then {FreshEgress(s, act).value} else {}
  }

  /** A server that changes its ingress key or comes to rest was at rest before, or starts with fresh egress keys. */
  ghost predicate OwnShape(s: Server, s': Server, drawn: set<EgressKey>) {
    && s'.mine <= s.mine + drawn
    && (s'.enc.ingress != s.enc.ingress || Resting(s') ==> Resting(s) || s'.mine <= drawn)
  }

  lemma ActHasOwnShape(w: World, i: ServerId, act: Action)
    requires Inv(w) && DrawInv(w) && Enabled(w, By(i, act))
    ensures OwnShape(w.servers[i], Act(w, i, act).server, Drawn1(w.servers[i], act))
  {
    assert DrawsOk(w.db, w.servers[i]) && Placed(w.db, w.servers[i]);
  }

  lemma SameRowsKeepOwn(blocks: seq<BlockRow>, s: Server, s': Server, issued: set<EgressKey>, drawn: set<EgressKey>)
    requires OwnRows(blocks, s) && OwnShape(s, s', drawn) && RowsMadeWith(blocks, issued) && drawn !! issued
    ensures OwnRows(blocks, s')
  {
  }

  /** A new row, made with the server's own egress keys and for its ingress key. */
  lemma NewRowKeepsOwners(blocks: seq<BlockRow>, row: BlockRow, s: Server, s': Server)
    requires OneKeyPerEgress(blocks) && OwnRows(blocks, s) && !Resting(s')
    requires row.key == s.enc.ingress && MadeWith(row.records, s.mine) && s'.mine == s.mine
             && s'.enc.ingress == s.enc.ingress
    ensures OneKeyPerEgress(blocks + [row]) && OwnRows(blocks + [row], s')
  {
    var all := blocks + [row];
    forall r, e | 0 <= r < |all| && e in s.mine && HasEgress(all[r].records, e)
      ensures all[r].key == s.enc.ingress
    {
      if r < |blocks| {
        assert HasEgress(blocks[r].records, e);
      }
    }
    forall r, r', e | 0 <= r < |all| && 0 <= r' < |all| && HasEgress(all[r].records, e) && HasEgress(all[r'].records, e)
      ensures all[r].key == all[r'].key
    {
      if r < |blocks| && r' < |blocks| {
        assert HasEgress(blocks[r].records, e) && HasEgress(blocks[r'].records, e);
      } else {
        assert HasEgress(row.records, e);
      }
    }
  }

  lemma CommitKeepsOwners(w: World, i: ServerId, out: Outcome)
    requires Inv(w) && DrawInv(w) && OwnersInv(w) && i < |w.servers| && ActEnabled(w, i, AAddBlock(out))
    ensures OwnersInv(Apply(w, By(i, AAddBlock(out))))
  {
    var s, r := w.servers[i], Act(w, i, AAddBlock(out));
    assert DrawsOk(w.db, s) && OwnRows(w.db.blocks, s);
    CommitHasShape(w, i, out);
    if r.db.blocks != w.db.blocks {
      var row := r.db.blocks[|w.db.blocks|];
      assert Placed(w.db, s);
      NewRowKeepsOwners(w.db.blocks, row, s, r.server);
      forall j | 0 <= j < |w.servers| && j != i
        ensures OwnRows(r.db.blocks, w.servers[j])
      {
      }
    } else {
      assert Placed(w.db, s);
    }
  }

  lemma ActKeepsOwners(w: World, i: ServerId, act: Action)
    requires Inv(w) && DrawInv(w) && OwnersInv(w) && Enabled(w, By(i, act))
    ensures OwnersInv(Apply(w, By(i, act)))
  {
    if act.AAddBlock? {
      CommitKeepsOwners(w, i, act.out);
    } else {
      ActIsOp(w, i, act);
      ActHasOwnShape(w, i, act);
      assert Act(w, i, act).db.blocks == w.db.blocks;
      SameRowsKeepOwn(w.db.blocks, w.servers[i], Act(w, i, act).server, w.issued, Drawn1(w.servers[i], act));
    }
  }

  lemma StepKeepsOwners(w: World, step: Step)
    requires Inv(w) && DrawInv(w) && OwnersInv(w) && Enabled(w, step)
    ensures OwnersInv(Apply(w, step))
  {
    match step
    case LedgerGrows(_) =>
    case Operator(op) => assert DbApply(w.db, op).blocks == w.db.blocks;
    case By(i, act) => ActKeepsOwners(w, i, act);
  }

  /** In every run an egress key serves one ingress key. */
  lemma {:induction false} RunOwners(t: Trace, n: nat)
    requires IsRun(t) && n < |t.worlds|
    ensures OwnersInv(t.worlds[n])
  {
    if n > 0 {
      RunOwners(t, n - 1);
      RunInv(t, n - 1);
      RunDrawsInOrder(t, n - 1);
      StepKeepsOwners(t.worlds[n - 1], t.steps[n - 1]);
    }
  }
}
