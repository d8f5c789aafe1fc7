/**
 * One server's share of a run: its own steps, with whatever the others do to the database and what
 * peers answer in between. The controller object is proved to follow such a path.
 */
module LocalRuns {
  import opened Prelude
  import opened RecoveryTables
  import opened ControllerState
  import opened IngestProtocol

  /** `Others` is any sequence of transactions of the rest of the world; `PeerIdle` is a peer's answer
      that it is idle. */
  datatype LocalStep = Others(ops: seq<DbOp>) | Mine(act: Action) | PeerIdle(peer: ServerId)

  /** The world with no one else in it. */
  function Lone(ledger: seq<Block>, id: ServerId, l: Local): World {
    World(ledger, l.db, seq(id + 1, _ => l.server), {})
  }

  predicate CanStep(ledger: seq<Block>, id: ServerId, l: Local, step: LocalStep) {
    match step
    case Others(_) => true
    case Mine(act) => !act.ACheckPeer? && ActEnabled(Lone(ledger, id, l), id, act)
    case PeerIdle(j) => j != id && l.server.run.Up? && l.server.pc.Activating? && l.server.pc.phase.CheckingPeers?
  }

  function StepLocal(ledger: seq<Block>, id: ServerId, l: Local, step: LocalStep): Local
    requires CanStep(ledger, id, l, step)
  {
    match step
    case Others(ops) => Local(DbRun(l.db, ops), l.server)
    case Mine(act) => Act(Lone(ledger, id, l), id, act)
    case PeerIdle(j) => Local(l.db, l.server.(pc := Activating(l.server.pc.checked + {j}, CheckingPeers)))
  }

  /** Where a path leads, if every step of it is enabled. */
  function Exec(ledger: seq<Block>, id: ServerId, l: Local, steps: seq<LocalStep>): Option<Local> {
    if |steps| == 0 then Some(l)
    else
      var mid := Exec(ledger, id, l, steps[..|steps| - 1]);
      if mid.Some? && CanStep(ledger, id, mid.value, steps[|steps| - 1])
      then Some(StepLocal(ledger, id, mid.value, steps[|steps| - 1]))
      else None
  }

  lemma ExecSnoc(ledger: seq<Block>, id: ServerId, l: Local, steps: seq<LocalStep>, mid: Local, step: LocalStep)
    requires Exec(ledger, id, l, steps) == Some(mid) && CanStep(ledger, id, mid, step)
    ensures Exec(ledger, id, l, steps + [step]) == Some(StepLocal(ledger, id, mid, step))
  {
    assert (steps + [step])[..|steps|] == steps;
  }

  lemma {:induction false} ExecTrans(ledger: seq<Block>, id: ServerId, l: Local, a: seq<LocalStep>, m: Local,
                                     b: seq<LocalStep>)
    requires Exec(ledger, id, l, a) == Some(m)
    ensures Exec(ledger, id, l, a + b) == Exec(ledger, id, m, b)
    decreases |b|
  {
    if |b| == 0 {
      assert a + b == a;
    } else {
      ExecTrans(ledger, id, l, a, m, b[..|b| - 1]);
      assert (a + b)[..|a + b| - 1] == a + b[..|b| - 1];
    }
  }

  /** The others move, then we do. */
  lemma ExecMine(ledger: seq<Block>, id: ServerId, l: Local, steps: seq<LocalStep>, mid: Local, ops: seq<DbOp>,
                 act: Action)
    requires Exec(ledger, id, l, steps) == Some(mid) && !act.ACheckPeer?
    requires ActEnabled(Lone(ledger, id, Local(DbRun(mid.db, ops), mid.server)), id, act)
    ensures Exec(ledger, id, l, steps + [Others(ops), Mine(act)])
            == Some(Act(Lone(ledger, id, Local(DbRun(mid.db, ops), mid.server)), id, act))
  {
    ExecSnoc(ledger, id, l, steps, mid, Others(ops));
    ExecSnoc(ledger, id, l, steps + [Others(ops)], Local(DbRun(mid.db, ops), mid.server), Mine(act));
    assert steps + [Others(ops)] + [Mine(act)] == steps + [Others(ops), Mine(act)];
  }

  /** A step of ours does not depend on who else is there: in every world with this ledger, this database
      and this server, it is the protocol's step. A peer's idle answer is the protocol's peer check. */
  lemma StepIsProtocolStep(w: World, id: ServerId, step: LocalStep)
    requires id < |w.servers| && CanStep(w.ledger, id, Local(w.db, w.servers[id]), step) && !step.Others?
    requires step.PeerIdle? ==>
               step.peer < |w.servers| && Serving(w.servers[step.peer]) && w.servers[step.peer].st.mode.Idle?
    ensures var act := if step.Mine? then step.act else ACheckPeer(step.peer);
            && ActEnabled(w, id, act)
            && Act(w, id, act) == StepLocal(w.ledger, id, Local(w.db, w.servers[id]), step)
  {
    assert Lone(w.ledger, id, Local(w.db, w.servers[id])).servers[id] == w.servers[id];
  }
}
