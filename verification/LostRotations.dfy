/**
 * Recording a rotation whose reply is lost. The transaction replaces the server's invocation by one for the new
 * egress key; the server that does not hear of it repeats it with the id it still holds. That id is then
 * decommissioned, and the event table admits one decommission event per invocation, so every repetition fails.
 */
module LostRotations {
  import opened RecoveryTables
  import opened TableLaws
  import opened IngestProtocol
  import opened Contiguity
  import opened ContiguityRuns
  import opened DrawOrder

  /** The server is recording a rotation, and the invocation it holds is decommissioned. */
  ghost predicate Replaced(db: Db, s: Server) {
    && s.pc.Rotating? && s.st.iid.Some?
    && s.st.iid.value < |db.invocations| && db.invocations[s.st.iid.value].decommissioned
  }

  /** An egress key is first recorded by the transaction that replaces the invocation. */
  ghost predicate Unrecorded(db: Db, s: Server) {
    s.pc.Rotating? ==>
      s.pc.egress == s.enc.egress && (Replaced(db, s) || s.pc.egress !in EgressKeys(db.invocations))
  }

  ghost predicate RotationInv(w: World) {
    && EgressKeys(w.db.invocations) <= w.issued
    && (forall i :: 0 <= i < |w.servers| ==> Unrecorded(w.db, w.servers[i]))
  }

  function Recorded(op: DbOp): set<EgressKey> {
    if op.OpNewInvocation? then {op.egress} else {}
  }

  lemma EgressKeysGrow(db: Db, op: DbOp)
    ensures EgressKeys(DbApply(db, op).invocations) <= EgressKeys(db.invocations) + Recorded(op)
  {
    var before, after := db.invocations, DbApply(db, op).invocations;
    forall e | e in EgressKeys(after)
      ensures e in EgressKeys(before) + Recorded(op)
    {
      var k :| 0 <= k < |after| && after[k].egress == e;
      if k < |before| {
        assert before[k].egress == e;
      }
    }
  }

  /** A server records only an egress key of its own. */
  lemma ActRecordsOwn(w: World, i: nat, act: Action)
    requires Inv(w) && DrawInv(w) && RotationInv(w) && Enabled(w, By(i, act))
    ensures Recorded(ActOp(w, i, act)) <= w.servers[i].mine
  {
    assert DrawsOk(w.db, w.servers[i]) && Placed(w.db, w.servers[i]) && Unrecorded(w.db, w.servers[i]);
  }

  lemma OthersKeepUnrecorded(db: Db, op: DbOp, s: Server, theirs: set<EgressKey>)
    requires Unrecorded(db, s) && Holds(db, s) && Recorded(op) <= theirs && theirs !! s.mine
    requires s.pc.Rotating? ==> s.enc.egress in s.mine
    ensures Unrecorded(DbApply(db, op), s)
  {
    EgressKeysGrow(db, op);
    ApplyExtends(db, op);
  }

  /** A rotation that commits decommissions the id we hold. */
  lemma RecordReplaces(w: World, i: nat, out: Outcome)
    requires Inv(w) && RotationInv(w) && Enabled(w, By(i, ARecordRotation(out)))
    ensures var s, r := w.servers[i], Act(w, i, ARecordRotation(out));
            && (r.server == s || r.server.pc.Scanning?)
            && (r.server == s ==> r.db == w.db || Replaced(r.db, s))
            && (Replaced(w.db, s) ==> r.db == w.db && r.server == s)
            && (!Replaced(w.db, s) && !out.Failed? ==> r.db != w.db)
            && (!Replaced(w.db, s) && out.Acked? ==> r.server.pc.Scanning?)
  {
    assert Placed(w.db, w.servers[i]) && Holds(w.db, w.servers[i]) && Unrecorded(w.db, w.servers[i]);
    assert DbInv(w.db);
    var s := w.servers[i];
    var d := Decommission(w.db, s.st.iid.value);
    if d.Ok? {
      EgressKeysGrow(w.db, OpDecommission(s.st.iid.value));
    }
  }

  ghost predicate SameRotation(s: Server, s': Server) {
    s'.pc == s.pc && s'.st.iid == s.st.iid && s'.enc == s.enc
  }

  /** Whatever else a server does while it records a rotation, short of crashing, leaves the rotation alone. */
  lemma RotatingOtherwise(w: World, i: nat, act: Action)
    requires Inv(w) && i < |w.servers| && ActEnabled(w, i, act) && !act.ARecordRotation? && !act.AIngestChunk?
    ensures var s, r := w.servers[i], Act(w, i, act);
            (s.pc.Rotating? && !act.ACrash?) || r.server.pc.Rotating? ==> SameRotation(s, r.server) && r.db == w.db
  {
    assert Placed(w.db, w.servers[i]);
  }

  lemma OwnActKeepsUnrecorded(w: World, i: nat, act: Action)
    requires Inv(w) && DrawInv(w) && RotationInv(w) && Enabled(w, By(i, act))
    ensures Unrecorded(Act(w, i, act).db, Act(w, i, act).server)
  {
    assert Unrecorded(w.db, w.servers[i]);
    if act.ARecordRotation? {
      RecordReplaces(w, i, act.out);
    } else if !act.AIngestChunk? {
      RotatingOtherwise(w, i, act);
    }
  }

  lemma StepKeepsRotationInv(w: World, step: Step)
    requires Inv(w) && DrawInv(w) && RotationInv(w) && Enabled(w, step)
    ensures RotationInv(Apply(w, step))
  {
    StepIsOp(w, step);
    EgressKeysGrow(w.db, StepOp(w, step));
    if step.By? {
      ActRecordsOwn(w, step.id, step.act);
      OwnActKeepsUnrecorded(w, step.id, step.act);
    }
    forall i | 0 <= i < |w.servers| && !(step.By? && step.id == i)
      ensures Unrecorded(Apply(w, step).db, Apply(w, step).servers[i])
    {
      assert DrawsOk(w.db, w.servers[i]) && Holds(w.db, w.servers[i]) && Placed(w.db, w.servers[i]);
      OthersKeepUnrecorded(w.db, StepOp(w, step), w.servers[i], if step.By? then w.servers[step.id].mine else {});
    }
  }

  lemma {:induction false} RunRotationInv(t: Trace, n: nat)
    requires IsRun(t) && n < |t.worlds|
    ensures RotationInv(t.worlds[n])
  {
    if n > 0 {
      RunRotationInv(t, n - 1);
      RunInv(t, n - 1);
      RunDrawsInOrder(t, n - 1);
      StepKeepsRotationInv(t.worlds[n - 1], t.steps[n - 1]);
    }
  }

  /** An attempt to record a rotation that is answered succeeds if and only if no earlier one was committed. */
  lemma RotationEndsIff(t: Trace, n: nat)
    requires IsRun(t) && n < |t.steps| && t.steps[n].By? && t.steps[n].act == ARecordRotation(Acked)
    ensures t.worlds[n + 1].servers[t.steps[n].id].pc.Scanning? <==>
            !Replaced(t.worlds[n].db, t.worlds[n].servers[t.steps[n].id])
  {
    RunInv(t, n);
    RunRotationInv(t, n);
    RecordReplaces(t.worlds[n], t.steps[n].id, Acked);
  }

  /** The rotation is committed, and the server does not hear of it. */
  ghost predicate RotationLost(w: World, step: Step, w': World, i: nat) {
    step == By(i, ARecordRotation(LostAck)) && w'.db != w.db
  }

  lemma StepSticks(w: World, step: Step, i: nat)
    requires Inv(w) && RotationInv(w) && Enabled(w, step) && i < |w.servers| && Replaced(w.db, w.servers[i])
    requires step != By(i, ACrash)
    ensures Replaced(Apply(w, step).db, Apply(w, step).servers[i])
    ensures SameRotation(w.servers[i], Apply(w, step).servers[i])
  {
    StepIsOp(w, step);
    ApplyExtends(w.db, StepOp(w, step));
    if step.By? && step.id == i {
      if step.act.ARecordRotation? {
        RecordReplaces(w, i, step.act.out);
      } else if !step.act.AIngestChunk? {
        RotatingOtherwise(w, i, step.act);
      }
    }
  }

  /** From then on the server stays where it is until it crashes. */
  lemma {:induction false} StuckUntilCrash(t: Trace, n: nat, m: nat, i: nat)
    requires IsRun(t) && n <= m < |t.worlds| && i < |t.worlds[n].servers|
             && Replaced(t.worlds[n].db, t.worlds[n].servers[i])
    requires forall x :: n <= x < m ==> t.steps[x] != By(i, ACrash)
    ensures i < |t.worlds[m].servers| && Replaced(t.worlds[m].db, t.worlds[m].servers[i])
    ensures SameRotation(t.worlds[n].servers[i], t.worlds[m].servers[i])
  {
    if n < m {
      StuckUntilCrash(t, n, m - 1, i);
      RunInv(t, m - 1);
      RunRotationInv(t, m - 1);
      StepSticks(t.worlds[m - 1], t.steps[m - 1], i);
    }
  }

  /** After a rotation was committed and its reply lost, the server leaves the rotation only by a crash. */
  lemma LostRotationSticks(t: Trace, n: nat, m: nat, i: nat)
    requires IsRun(t) && n < m < |t.worlds| && RotationLost(t.worlds[n], t.steps[n], t.worlds[n + 1], i)
    requires forall x :: n < x < m ==> t.steps[x] != By(i, ACrash)
    ensures i < |t.worlds[n].servers| && i < |t.worlds[m].servers|
    ensures t.worlds[n].servers[i].pc.Rotating? && SameRotation(t.worlds[n].servers[i], t.worlds[m].servers[i])
  {
    RunInv(t, n);
    RunRotationInv(t, n);
    RecordReplaces(t.worlds[n], i, LostAck);
    StuckUntilCrash(t, n + 1, m, i);
  }

  lemma OwnReplacedBefore(w: World, act: Action, i: nat)
    requires Inv(w) && RotationInv(w) && Enabled(w, By(i, act)) && Holds(w.db, w.servers[i])
    requires Replaced(Act(w, i, act).db, Act(w, i, act).server)
    ensures w.servers[i].pc.Rotating? && SameRotation(w.servers[i], Act(w, i, act).server)
    ensures Replaced(w.db, w.servers[i]) || (act == ARecordRotation(LostAck) && Act(w, i, act).db != w.db)
  {
    if act.ARecordRotation? {
      RecordReplaces(w, i, act.out);
    } else if !act.AIngestChunk? {
      RotatingOtherwise(w, i, act);
    }
  }

  /** One step back: the id was replaced before, or it is this step that replaced it unheard. */
  lemma ReplacedBefore(w: World, step: Step, i: nat)
    requires Inv(w) && RotationInv(w) && Enabled(w, step) && i < |w.servers|
    requires Replaced(Apply(w, step).db, Apply(w, step).servers[i])
    ensures w.servers[i].pc.Rotating? && SameRotation(w.servers[i], Apply(w, step).servers[i])
    ensures Replaced(w.db, w.servers[i]) || RotationLost(w, step, Apply(w, step), i)
  {
    assert Holds(w.db, w.servers[i]);
    if step.By? && step.id == i {
      OwnReplacedBefore(w, step.act, i);
    } else {
      StepIsOp(w, step);
      if step.By? {
        ActInOrder(w, step.id, step.act);
      }
      OnlyDecommissions(w.db, StepOp(w, step), w.servers[i].st.iid.value);
    }
  }

  lemma RunReplacedBefore(t: Trace, n: nat, i: nat)
    requires IsRun(t) && n < |t.steps| && i < |t.worlds[n + 1].servers|
    requires Replaced(t.worlds[n + 1].db, t.worlds[n + 1].servers[i])
    ensures i < |t.worlds[n].servers| && SameRotation(t.worlds[n].servers[i], t.worlds[n + 1].servers[i])
    ensures Replaced(t.worlds[n].db, t.worlds[n].servers[i]) ||
            RotationLost(t.worlds[n], t.steps[n], t.worlds[n + 1], i)
  {
    RunInv(t, n);
    RunRotationInv(t, n);
    ReplacedBefore(t.worlds[n], t.steps[n], i);
  }

  /** Only that: a server that cannot record its rotation has committed it and not heard of it. */
  lemma {:induction false} StuckIsLost(t: Trace, m: nat, i: nat) returns (n: nat)
    requires IsRun(t) && m < |t.worlds| && i < |t.worlds[m].servers| && Replaced(t.worlds[m].db, t.worlds[m].servers[i])
    ensures n < m && RotationLost(t.worlds[n], t.steps[n], t.worlds[n + 1], i)
    ensures i < |t.worlds[n].servers| && SameRotation(t.worlds[n].servers[i], t.worlds[m].servers[i])
  {
    assert m > 0;
    RunReplacedBefore(t, m - 1, i);
    if Replaced(t.worlds[m - 1].db, t.worlds[m - 1].servers[i]) {
      n := StuckIsLost(t, m - 1, i);
    } else {
      n := m - 1;
    }
  }
}
