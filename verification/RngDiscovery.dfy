/**
 * A client learns its rngs from the event table: every egress key in the database was announced by an
 * event, so a client that has paged to the end, over any number of polls at any times of a run, knows
 * exactly the egress keys of the database. Event ids here follow commit order.
 */
module RngDiscovery {
  import opened Prelude
  import opened FogView
  import opened RecoveryTables
  import opened TableLaws
  import opened IngestProtocol
  import opened ContiguityRuns
  import opened ProtocolTheorems
  import opened EventPaging

  /** The table's rows: serial ids from 1. */
  function RowsOf(events: seq<UserEvent>): (rows: seq<EventRow>)
    ensures |rows| == |events| && forall i :: 0 <= i < |rows| ==> rows[i] == EventRow(i + 1, events[i])
  {
    seq(|events|, i requires 0 <= i < |events| => EventRow(i + 1, events[i]))
  }

  /** Every invocation is announced, and only invocations that exist are. */
  ghost predicate EventsOk(db: Db) {
    && (forall i :: 0 <= i < |db.invocations| ==> NewIngestInvocation(i) in db.events)
    && (forall x :: 0 <= x < |db.events| && db.events[x].NewIngestInvocation? ==> db.events[x].iid < |db.invocations|)
  }

  lemma InsertKeepsEvents(db: Db, key: IngressKey, egress: EgressKey, startBlock: nat)
    requires EventsOk(db)
    ensures var r := InsertInvocation(db, key, egress, startBlock); r.Ok? ==> EventsOk(r.value.0)
  {
    var r := InsertInvocation(db, key, egress, startBlock);
    if r.Ok? {
      assert r.value.0.events[|db.events|] == NewIngestInvocation(|db.invocations|);
    }
  }

  lemma ApplyKeepsEvents(db: Db, op: DbOp)
    requires EventsOk(db)
    ensures EventsOk(DbApply(db, op))
  {
    ApplyExtends(db, op);
    if op.OpNewInvocation? {
      if op.prev.Some? {
        var d := Decommission(db, op.prev.value);
        if d.Ok? {
          assert EventsOk(d.value);
          InsertKeepsEvents(d.value, op.key, op.egress, op.startBlock);
        }
      } else {
        InsertKeepsEvents(db, op.key, op.egress, op.startBlock);
      }
    }
  }

  lemma {:induction false} RunEventsOk(t: Trace, n: nat)
    requires IsRun(t) && n < |t.worlds|
    ensures EventsOk(t.worlds[n].db)
  {
    if n > 0 {
      RunEventsOk(t, n - 1);
      StepIsOp(t.worlds[n - 1], t.steps[n - 1]);
      ApplyKeepsEvents(t.worlds[n - 1].db, StepOp(t.worlds[n - 1], t.steps[n - 1]));
    }
  }

  /** The events a poll from cursor c shows. */
  function PageOf(db: Db, c: nat): (page: seq<Keyed>)
    requires EventsOk(db) && c <= |db.events|
    ensures |page| == |db.events| - c
    ensures forall i :: 0 <= i < |page| ==>
              page[i].id == c + i + 1 && Some(page[i].event) == Render(db, db.events[c + i])
  {
    seq(|db.events| - c, i requires 0 <= i < |db.events| - c =>
      Keyed(c + i + 1, Render(db, db.events[c + i]).value))
  }

  lemma SameLast(a: seq<Keyed>, b: seq<Keyed>)
    requires Ascending(a) && Ascending(b) && |a| > 0 && |b| > 0 && forall k :: k in a <==> k in b
    ensures a[|a| - 1] == b[|b| - 1]
  {
    var x, y := a[|a| - 1], b[|b| - 1];
    assert x in b && y in a;
    var i :| 0 <= i < |b| && b[i] == x;
    var j :| 0 <= j < |a| && a[j] == y;
  }

  lemma FrontMembers(a: seq<Keyed>, k: Keyed)
    requires Ascending(a) && |a| > 0
    ensures k in a[..|a| - 1] <==> k in a && k != a[|a| - 1]
  {
    if k in a && k != a[|a| - 1] {
      var i :| 0 <= i < |a| && a[i] == k;
      assert a[..|a| - 1][i] == k;
    }
  }

  lemma NonEmptyTogether(a: seq<Keyed>, b: seq<Keyed>)
    requires |a| > 0 && forall k :: k in a ==> k in b
    ensures |b| > 0
  {
    assert a[0] in b;
  }

  /** A query has only one page. */
  lemma {:induction false} PageUnique(a: seq<Keyed>, b: seq<Keyed>)
    requires Ascending(a) && Ascending(b) && forall k :: k in a <==> k in b
    ensures a == b
  {
    if a != [] {
      NonEmptyTogether(a, b);
    } else if b != [] {
      NonEmptyTogether(b, a);
    }
    if a != [] {
      SameLast(a, b);
      var a', b' := a[..|a| - 1], b[..|b| - 1];
      forall k
        ensures k in a' <==> k in b'
      {
        FrontMembers(a, k);
        FrontMembers(b, k);
      }
      PageUnique(a', b');
      assert a == a' + [a[|a| - 1]] && b == b' + [b[|b| - 1]];
    }
  }

  /** It is the only page of the query, and the next cursor is the number of events. */
  lemma PageOfIsPage(db: Db, c: nat)
    requires EventsOk(db) && c <= |db.events|
    ensures IsPage(db, RowsOf(db.events), c, PageOf(db, c))
    ensures CursorAfter(c, PageOf(db, c)) == |db.events|
    ensures forall page :: IsPage(db, RowsOf(db.events), c, page) ==> page == PageOf(db, c)
  {
    var rows, page := RowsOf(db.events), PageOf(db, c);
    forall k
      ensures k in page <==> Shows(db, rows, c, k)
    {
      if k in page {
        var i :| 0 <= i < |page| && page[i] == k;
        RenderTells(db, rows[c + i].event, k.event);
        assert rows[c + i].id == k.id;
      }
      if Shows(db, rows, c, k) {
        var i :| 0 <= i < |rows| && rows[i].id > c && rows[i].id == k.id && Tells(db, rows[i].event, k.event);
        RenderTells(db, rows[i].event, k.event);
        assert page[i - c] == k;
      }
    }
    forall other | IsPage(db, rows, c, other)
      ensures other == page
    {
      PageUnique(other, page);
    }
  }

  ghost predicate PollTimes(t: Trace, times: seq<nat>) {
    && (forall i :: 0 <= i < |times| ==> times[i] < |t.worlds|)
    && forall i, j :: 0 <= i < j < |times| ==> times[i] <= times[j]
  }

  /** The cursor after polling at the given times, from 0. */
  ghost function CursorOf(t: Trace, times: seq<nat>): nat
    requires PollTimes(t, times)
  {
    if times == [] then 0 else |t.worlds[times[|times| - 1]].db.events|
  }

  lemma CursorFits(t: Trace, times: seq<nat>)
    requires IsRun(t) && PollTimes(t, times) && |times| > 0
    ensures PollTimes(t, times[..|times| - 1])
    ensures CursorOf(t, times[..|times| - 1]) <= |t.worlds[times[|times| - 1]].db.events|
    ensures EventsOk(t.worlds[times[|times| - 1]].db)
  {
    var n := times[|times| - 1];
    RunEventsOk(t, n);
    if |times| > 1 {
      LaterWorldExtends(t, times[|times| - 2], n);
    }
  }

  /** All events received by polling at the given times. */
  ghost function Received(t: Trace, times: seq<nat>): seq<Keyed>
    requires IsRun(t) && PollTimes(t, times)
  {
    if times == [] then []
    else
      CursorFits(t, times);
      Received(t, times[..|times| - 1]) + PageOf(t.worlds[times[|times| - 1]].db, CursorOf(t, times[..|times| - 1]))
  }

  /** An announcement is shown the same at all times. */
  lemma SameRecord(db: Db, db': Db, x: nat)
    requires EventsOk(db) && ExtendsMany(db, db') && x < |db.events| && db'.events[x].NewIngestInvocation?
    ensures Render(db, db.events[x]) == Render(db', db'.events[x])
  {
    assert db.events[x] == db'.events[x];
    assert SameInvocation(db.invocations[db.events[x].iid], db'.invocations[db.events[x].iid]);
  }

  /** Each event of the table was received exactly once and in order: event x is the x-th received, and
      rng records name the egress key their invocation has for good. */
  lemma {:induction false} ReceivedAll(t: Trace, times: seq<nat>, n: nat)
    requires IsRun(t) && PollTimes(t, times) && n < |t.worlds|
    requires forall i :: 0 <= i < |times| ==> times[i] <= n
    ensures |Received(t, times)| == CursorOf(t, times) <= |t.worlds[n].db.events|
    ensures forall x :: 0 <= x < CursorOf(t, times) ==> Received(t, times)[x].id == x + 1
    ensures forall x :: 0 <= x < CursorOf(t, times) && t.worlds[n].db.events[x].NewIngestInvocation? ==>
              var iid := t.worlds[n].db.events[x].iid;
              && iid < |t.worlds[n].db.invocations|
              && Received(t, times)[x].event
                 == NewRngRecord(iid, t.worlds[n].db.invocations[iid].egress,
                                 t.worlds[n].db.invocations[iid].startBlock)
  {
    RunEventsOk(t, n);
    if times != [] {
      var m, front := times[|times| - 1], times[..|times| - 1];
      CursorFits(t, times);
      ReceivedAll(t, front, n);
      LaterWorldExtends(t, m, n);
      var c, db, db' := CursorOf(t, front), t.worlds[m].db, t.worlds[n].db;
      forall x | c <= x < |db.events| && db'.events[x].NewIngestInvocation?
        ensures Received(t, times)[x] == Keyed(x + 1, Render(db', db'.events[x]).value)
      {
        assert Received(t, times)[x] == PageOf(db, c)[x - c];
        SameRecord(db, db', x);
      }
    }
  }

  /** After paging to the end, over any polls of a run, the client knows exactly the egress keys of the
      database as it was at the last poll. */
  lemma EveryRngIsDiscovered(t: Trace, times: seq<nat>)
    requires IsRun(t) && PollTimes(t, times) && |times| > 0
    ensures EgressIn(Received(t, times)) == EgressKeys(t.worlds[times[|times| - 1]].db.invocations)
  {
    var n := times[|times| - 1];
    var db, got := t.worlds[n].db, Received(t, times);
    ReceivedAll(t, times, n);
    RunEventsOk(t, n);
    forall i | 0 <= i < |db.invocations|
      ensures db.invocations[i].egress in EgressIn(got)
    {
      assert NewIngestInvocation(i) in db.events;
      var x :| 0 <= x < |db.events| && db.events[x] == NewIngestInvocation(i);
      assert got[x].event.egress == db.invocations[i].egress;
    }
    forall x | 0 <= x < |got| && got[x].event.NewRngRecord?
      ensures got[x].event.egress in EgressKeys(db.invocations)
    {
      RecordFromEvent(t, times, x);
    }
  }

  /** Only an announcement is shown as a rng record. */
  lemma {:induction false} RecordFromEvent(t: Trace, times: seq<nat>, x: nat)
    requires IsRun(t) && PollTimes(t, times) && |times| > 0 && x < |Received(t, times)|
    requires Received(t, times)[x].event.NewRngRecord?
    ensures Received(t, times)[x].event.egress in EgressKeys(t.worlds[times[|times| - 1]].db.invocations)
  {
    var n, front := times[|times| - 1], times[..|times| - 1];
    var db := t.worlds[n].db;
    CursorFits(t, times);
    ReceivedAll(t, front, n);
    if x < |Received(t, front)| {
      var m := front[|front| - 1];
      RecordFromEvent(t, front, x);
      LaterWorldExtends(t, m, n);
      var i :| 0 <= i < |t.worlds[m].db.invocations|
        && t.worlds[m].db.invocations[i].egress == Received(t, front)[x].event.egress;
      assert db.invocations[i].egress == Received(t, times)[x].event.egress;
    } else {
      var c := CursorOf(t, front);
      var at := x - |Received(t, front)|;
      assert Received(t, times)[x] == PageOf(db, c)[at];
      assert db.events[c + at].NewIngestInvocation?;
      assert Received(t, times)[x].event.egress == db.invocations[db.events[c + at].iid].egress;
    }
  }
}
