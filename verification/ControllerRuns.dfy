/**
 * The controller object's paths are runs of the protocol. A path of one server is woven into a run that holds that
 * server: between its steps the other parties move, and every egress key the server draws is new. Everything
 * proved of runs is thereby proved of what the object does.
 */
module ControllerRuns {
  import opened Prelude
  import opened RecoveryTables
  import opened ControllerState
  import opened IngestProtocol
  import opened Contiguity
  import opened ContiguityRuns
  import opened DrawOrder
  import opened LocalRuns
  import opened RunBuilder

  // ---- what the other parties do -----------------------------------------------------------------------------

  /** No step is taken by this server. */
  predicate Foreign(steps: seq<Step>, id: ServerId) {
    forall x :: 0 <= x < |steps| ==> !(steps[x].By? && steps[x].id == id)
  }

  /** The world after these steps, if each is enabled. */
  function After(w: World, steps: seq<Step>): Option<World>
    decreases |steps|
  {
    if |steps| == 0 then Some(w)
    else if Enabled(w, steps[0]) then After(Apply(w, steps[0]), steps[1..])
    else None
  }

  lemma {:induction false} ForeignLeaves(w: World, id: ServerId, steps: seq<Step>, w': World)
    requires id < |w.servers| && Foreign(steps, id) && After(w, steps) == Some(w')
    ensures id < |w'.servers| && w'.servers[id] == w.servers[id] && w.ledger <= w'.ledger
    decreases |steps|
  {
    if |steps| > 0 {
      ForeignLeaves(Apply(w, steps[0]), id, steps[1..], w');
    }
  }

  /** What holds in every world of every run and makes the server's next step possible. */
  ghost predicate Regular(w: World) {
    Inv(w) && DrawInv(w)
  }

  lemma {:induction false} AfterIsRegular(w: World, steps: seq<Step>, w': World)
    requires Regular(w) && After(w, steps) == Some(w')
    ensures Regular(w')
    decreases |steps|
  {
    if |steps| > 0 {
      StepKeepsInv(w, steps[0]);
      StepKeepsOrder(w, steps[0]);
      AfterIsRegular(Apply(w, steps[0]), steps[1..], w');
    }
  }

  lemma {:induction false} AfterBoth(w: World, a: seq<Step>, w1: World, b: seq<Step>)
    requires After(w, a) == Some(w1)
    ensures After(w, a + b) == After(w1, b)
    decreases |a|
  {
    if |a| == 0 {
      assert a + b == b;
    } else {
      AfterBoth(Apply(w, a[0]), a[1..], w1, b);
      assert (a + b)[1..] == a[1..] + b;
    }
  }

  /** A run goes on with any steps that are enabled. */
  lemma OneMore(t: Trace, step: Step) returns (t': Trace)
    requires IsRun(t) && Enabled(Last(t), step)
    ensures IsRun(t') && t'.worlds == t.worlds + [Apply(Last(t), step)] && t'.steps == t.steps + [step]
  {
    t' := Trace(t.worlds + [Apply(Last(t), step)], t.steps + [step]);
    forall n | 0 <= n < |t'.steps|
      ensures Enabled(t'.worlds[n], t'.steps[n]) && t'.worlds[n + 1] == Apply(t'.worlds[n], t'.steps[n])
    {
      if n < |t.steps| {
        assert t'.worlds[n] == t.worlds[n] && t'.worlds[n + 1] == t.worlds[n + 1];
      }
    }
  }

  lemma {:induction false} GoOn(t: Trace, steps: seq<Step>, w': World) returns (t': Trace)
    requires IsRun(t) && After(Last(t), steps) == Some(w')
    ensures IsRun(t') && t.worlds <= t'.worlds && t'.steps == t.steps + steps && Last(t') == w'
    decreases |steps|
  {
    if |steps| == 0 {
      t' := t;
    } else {
      var t1 := OneMore(t, steps[0]);
      t' := GoOn(t1, steps[1..], w');
      assert [steps[0]] + steps[1..] == steps;
    }
  }

  // ---- what the server does ----------------------------------------------------------------------------------

  /** The egress key the enclave has drawn during an action. A chunk fails only after the key was replaced. */
  function Draws(act: Action): Option<EgressKey> {
    match act
    case ANewKeys(_, egress) => Some(egress)
    case ARekey(egress) => Some(egress)
    case AStartUp(_, egress) => Some(egress)
    case AIngestChunk(Rotated(egress), _) => Some(egress)
    case AIngestChunk(IngestFailed(after), _) => Some(after.egress)
    case _ => None
  }

  function OwnAct(step: LocalStep): Action
    requires !step.Others?
  {
    if step.Mine? then step.act else ACheckPeer(step.peer)
  }

  /** The surroundings allow the step: what it draws is new, and the peer that answers is idle. */
  predicate Allowed(w: World, step: LocalStep) {
    match step
    case Others(_) => true
    case Mine(act) => Draws(act).Some? ==> Draws(act).value !in w.issued
    case PeerIdle(j) => j < |w.servers| && Serving(w.servers[j]) && w.servers[j].st.mode.Idle?
  }

  function Moved(w: World, id: ServerId, act: Action, l: Local): World
    requires id < |w.servers|
  {
    World(w.ledger, l.db, w.servers[id := l.server],
          if Draws(act).Some? then w.issued + {Draws(act).value} else w.issued)
  }

  /** The path happens in this world: before each of its steps the other parties make some moves, by which they
      issue the transactions the path says they do. */
  ghost predicate Realised(w: World, ledger: seq<Block>, id: ServerId, l: Local, steps: seq<LocalStep>,
                           moves: seq<seq<Step>>)
    requires id < |w.servers|
    decreases |steps|
  {
    && |moves| == |steps|
    && (|steps| > 0 ==>
          && CanStep(ledger, id, l, steps[0])
          && Foreign(moves[0], id) && After(w, moves[0]).Some?
          && RealisedAfter(w, After(w, moves[0]).value, ledger, id, l, steps, moves))
  }

  ghost predicate RealisedAfter(w: World, w1: World, ledger: seq<Block>, id: ServerId, l: Local,
                                steps: seq<LocalStep>, moves: seq<seq<Step>>)
    requires |moves| == |steps| > 0 && id < |w.servers|
    requires CanStep(ledger, id, l, steps[0]) && Foreign(moves[0], id) && After(w, moves[0]) == Some(w1)
    decreases |steps|, 0
  {
    var l1 := StepLocal(ledger, id, l, steps[0]);
    ForeignLeaves(w, id, moves[0], w1);
    && Allowed(w1, steps[0])
    && if steps[0].Others? then w1.db == l1.db && Realised(w1, ledger, id, l1, steps[1..], moves[1..])
       else w1.db == l.db && Realised(Moved(w1, id, OwnAct(steps[0]), l1), ledger, id, l1, steps[1..], moves[1..])
  }

  /** One step of the path, with the moves before it. */
  function OneWoven(id: ServerId, step: LocalStep, moves: seq<Step>): seq<Step> {
    moves + if step.Others? then [] else [By(id, OwnAct(step))]
  }

  /** All steps, in order. */
  function Woven(id: ServerId, steps: seq<LocalStep>, moves: seq<seq<Step>>): seq<Step>
    requires |moves| == |steps|
  {
    if |steps| == 0 then []
    else OneWoven(id, steps[0], moves[0]) + Woven(id, steps[1..], moves[1..])
  }

  // ---- a path is a run ---------------------------------------------------------------------------------------

  /** More blocks in the ledger do not change what a server does. */
  lemma LongerLedger(w: World, w': World, i: ServerId, act: Action)
    requires i < |w.servers| && ActEnabled(w, i, act)
    requires w.ledger <= w'.ledger && w'.servers == w.servers && w'.db == w.db
    ensures ActEnabled(w', i, act) && Act(w', i, act) == Act(w, i, act)
  {
  }

  /** A failed chunk that leaves the egress key alone does not occur, so no counter is ever moved back. */
  lemma FreshDrawsEnable(w: World, id: ServerId, act: Action)
    requires DrawInv(w) && id < |w.servers| && ActEnabled(w, id, act)
    requires Draws(act).Some? ==> Draws(act).value !in w.issued
    ensures NeverDrawsAgain(w.servers[id], act) && FreshEgress(w.servers[id], act) == Draws(act)
    ensures Enabled(w, By(id, act))
  {
    assert DrawsOk(w.db, w.servers[id]);
  }

  lemma OwnStep(w: World, ledger: seq<Block>, id: ServerId, step: LocalStep)
    requires DrawInv(w) && id < |w.servers| && ledger <= w.ledger && !step.Others? && Allowed(w, step)
    requires CanStep(ledger, id, Local(w.db, w.servers[id]), step)
    ensures Enabled(w, By(id, OwnAct(step)))
    ensures Apply(w, By(id, OwnAct(step)))
            == Moved(w, id, OwnAct(step), StepLocal(ledger, id, Local(w.db, w.servers[id]), step))
  {
    var w0 := w.(ledger := ledger);
    StepIsProtocolStep(w0, id, step);
    LongerLedger(w0, w, id, OwnAct(step));
    FreshDrawsEnable(w, id, OwnAct(step));
  }

  lemma {:induction false} ExecHead(ledger: seq<Block>, id: ServerId, l: Local, steps: seq<LocalStep>, l': Local)
    requires |steps| > 0 && Exec(ledger, id, l, steps) == Some(l')
    ensures CanStep(ledger, id, l, steps[0])
    ensures Exec(ledger, id, StepLocal(ledger, id, l, steps[0]), steps[1..]) == Some(l')
    decreases |steps|
  {
    var front := steps[..|steps| - 1];
    if |steps| == 1 {
      assert front == [];
    } else {
      ExecHead(ledger, id, l, front, Exec(ledger, id, l, front).value);
      assert steps[1..][..|steps| - 2] == front[1..];
    }
  }

  lemma WeaveOne(w: World, ledger: seq<Block>, id: ServerId, step: LocalStep, moves: seq<Step>, w1: World)
    returns (w': World)
    requires Regular(w) && id < |w.servers| && ledger <= w.ledger
    requires Foreign(moves, id) && After(w, moves) == Some(w1) && Allowed(w1, step)
    requires var l := Local(w.db, w.servers[id]);
             CanStep(ledger, id, l, step) && w1.db == if step.Others? then StepLocal(ledger, id, l, step).db else l.db
    ensures After(w, OneWoven(id, step, moves)) == Some(w') && Regular(w')
    ensures id < |w1.servers| && ledger <= w'.ledger
    ensures var l1 := StepLocal(ledger, id, Local(w.db, w.servers[id]), step);
            && w' == (if step.Others? then w1 else Moved(w1, id, OwnAct(step), l1))
            && Local(w'.db, w'.servers[id]) == l1
  {
    ForeignLeaves(w, id, moves, w1);
    AfterIsRegular(w, moves, w1);
    w' := w1;
    if step.Others? {
      assert moves + [] == moves;
    } else {
      OwnStep(w1, ledger, id, step);
      w' := Apply(w1, By(id, OwnAct(step)));
      AfterBoth(w, moves, w1, [By(id, OwnAct(step))]);
      AfterIsRegular(w1, [By(id, OwnAct(step))], w');
    }
  }

  lemma {:induction false} PathReaches(w: World, ledger: seq<Block>, id: ServerId, l: Local, steps: seq<LocalStep>,
                                       l': Local, moves: seq<seq<Step>>)
    returns (w': World)
    requires Regular(w) && id < |w.servers| && ledger <= w.ledger
    requires Local(w.db, w.servers[id]) == l && Exec(ledger, id, l, steps) == Some(l')
    requires Realised(w, ledger, id, l, steps, moves)
    ensures After(w, Woven(id, steps, moves)) == Some(w')
    ensures id < |w'.servers| && Local(w'.db, w'.servers[id]) == l'
    decreases |steps|
  {
    w' := w;
    if |steps| > 0 {
      ExecHead(ledger, id, l, steps, l');
      var w1 := After(w, moves[0]).value;
      assert RealisedAfter(w, w1, ledger, id, l, steps, moves);
      var w2 := WeaveOne(w, ledger, id, steps[0], moves[0], w1);
      w' := PathReaches(w2, ledger, id, StepLocal(ledger, id, l, steps[0]), steps[1..], l', moves[1..]);
      AfterBoth(w, OneWoven(id, steps[0], moves[0]), w2, Woven(id, steps[1..], moves[1..]));
    }
  }

  /** From a run whose last world holds the server: the path, realised there, extends the run to one in which the
      server and the database are where the path leads. */
  lemma PathIsRun(t: Trace, ledger: seq<Block>, id: ServerId, l: Local, steps: seq<LocalStep>, l': Local,
                  moves: seq<seq<Step>>)
    returns (t': Trace)
    requires IsRun(t) && id < |Last(t).servers| && ledger <= Last(t).ledger
    requires Local(Last(t).db, Last(t).servers[id]) == l && Exec(ledger, id, l, steps) == Some(l')
    requires Realised(Last(t), ledger, id, l, steps, moves)
    ensures IsRun(t') && t.worlds <= t'.worlds && t'.steps == t.steps + Woven(id, steps, moves)
    ensures id < |Last(t').servers| && Local(Last(t').db, Last(t').servers[id]) == l'
  {
    RunInv(t, |t.worlds| - 1);
    RunDrawsInOrder(t, |t.worlds| - 1);
    var w' := PathReaches(Last(t), ledger, id, l, steps, l', moves);
    t' := GoOn(t, Woven(id, steps, moves), w');
  }
}
