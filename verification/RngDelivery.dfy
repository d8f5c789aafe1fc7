/**
 * Which rngs a client is told about, whatever the order in which event ids become visible: a client that
 * pages through the event table beside a run of the protocol knows an egress key if and only if one of its
 * announcements carried an id beyond the client's cursor when it became visible.
 */
module RngDelivery {
  import opened Prelude
  import opened RecoveryTables
  import opened TableLaws
  import opened IngestProtocol
  import opened ProtocolTheorems
  import opened EventPaging
  import opened EventRuns
  import opened RngDiscovery

  /** The reader's table in state x is the event table of world at[x]; the ids are whatever the database drew. */
  ghost predicate ReadsEvents(t: Trace, r: ReaderRun, at: seq<nat>) {
    && IsReaderRun(r) && |at| == |r.states|
    && (forall x :: 0 <= x < |at| ==> at[x] < |t.worlds|)
    && (forall x, y :: 0 <= x < y < |at| ==> at[x] <= at[y])
    && (forall x :: 0 <= x < |at| ==> ShowsTable(t.worlds[at[x]].db, r.states[x].rows))
    && (forall x :: 0 <= x < |r.steps| && r.steps[x].Poll? ==> r.steps[x].db == t.worlds[at[x]].db)
  }

  /** Row i of the reader's table is event i of the database, as far as it is visible. */
  ghost predicate ShowsTable(db: Db, rows: seq<EventRow>) {
    |rows| <= |db.events| && forall i :: 0 <= i < |rows| ==> rows[i].event == db.events[i]
  }

  /** Delivered event k stands for row i: it is shown as an rng record exactly if it announces an invocation,
      with the egress key that the invocation has for good. */
  ghost predicate StandsFor(db: Db, row: EventRow, k: Keyed) {
    && row.id == k.id
    && (row.event.NewIngestInvocation? <==> k.event.NewRngRecord?)
    && (row.event.NewIngestInvocation? ==>
          row.event.iid < |db.invocations| && k.event.egress == db.invocations[row.event.iid].egress)
  }

  ghost predicate AllStand(db: Db, rows: seq<EventRow>, delivered: seq<Keyed>) {
    forall k :: k in delivered ==> exists i :: 0 <= i < |rows| && StandsFor(db, rows[i], k)
  }

  lemma PageStands(db: Db, rows: seq<EventRow>, start: int, page: seq<Keyed>)
    requires IsPage(db, rows, start, page)
    ensures AllStand(db, rows, page)
  {
    forall k | k in page
      ensures exists i :: 0 <= i < |rows| && StandsFor(db, rows[i], k)
    {
      assert Shows(db, rows, start, k);
      var i :| 0 <= i < |rows| && rows[i].id > start && rows[i].id == k.id
        && Tells(db, rows[i].event, k.event);
      assert StandsFor(db, rows[i], k);
    }
  }

  lemma {:induction false} RunStands(t: Trace, r: ReaderRun, at: seq<nat>, n: nat)
    requires IsRun(t) && ReadsEvents(t, r, at) && n < |r.states|
    ensures AllStand(t.worlds[at[n]].db, r.states[n].rows, r.states[n].delivered)
  {
    if n > 0 {
      var before, s, s' := t.worlds[at[n - 1]].db, r.states[n - 1], r.states[n];
      RunStands(t, r, at, n - 1);
      assert Moves(s, r.steps[n - 1], s');
      if r.steps[n - 1].Poll? {
        PageStands(before, s.rows, s.cursor, r.steps[n - 1].page);
      }
      assert AllStand(before, s.rows, s'.delivered);
      LaterWorldExtends(t, at[n - 1], at[n]);
    }
  }

  lemma {:induction false} RowOrigin(r: ReaderRun, n: nat, i: nat) returns (x: nat)
    requires IsReaderRun(r) && n < |r.states| && i < |r.states[n].rows|
    ensures x < n && r.steps[x] == Append(r.states[n].rows[i])
  {
    assert n > 0;
    assert Moves(r.states[n - 1], r.steps[n - 1], r.states[n]);
    if i < |r.states[n - 1].rows| {
      x := RowOrigin(r, n - 1, i);
    } else {
      x := n - 1;
    }
  }

  /** Step x of the reader's run makes an announcement of this egress key visible. */
  ghost predicate Announces(t: Trace, r: ReaderRun, at: seq<nat>, x: nat, e: EgressKey)
    requires ReadsEvents(t, r, at) && x < |r.steps|
  {
    && r.steps[x].Append? && r.steps[x].row.event.NewIngestInvocation?
    && var iid, db := r.steps[x].row.event.iid, t.worlds[at[x + 1]].db;
    && iid < |db.invocations| && db.invocations[iid].egress == e
  }

  /** The announcement of step x comes with an id beyond the cursor the reader has then. */
  ghost predicate AheadOfCursor(r: ReaderRun, x: nat)
    requires IsReaderRun(r) && x < |r.steps| && r.steps[x].Append?
  {
    r.steps[x].row.id > r.states[x].cursor
  }

  lemma SameEgress(t: Trace, m: nat, n: nat, iid: InvocationId)
    requires IsRun(t) && m <= n < |t.worlds| && iid < |t.worlds[m].db.invocations|
    ensures iid < |t.worlds[n].db.invocations|
    ensures t.worlds[m].db.invocations[iid].egress == t.worlds[n].db.invocations[iid].egress
  {
    LaterWorldExtends(t, m, n);
    assert SameInvocation(t.worlds[m].db.invocations[iid], t.worlds[n].db.invocations[iid]);
  }

  lemma DeliveryTeaches(t: Trace, r: ReaderRun, at: seq<nat>, n: nat, row: EventRow, e: EgressKey)
    requires IsRun(t) && ReadsEvents(t, r, at) && n < |r.states| && DistinctIds(r.states[n].rows)
             && row in r.states[n].rows
    requires exists k :: k in r.states[n].delivered && k.id == row.id
    requires row.event.NewIngestInvocation?
    requires var db := t.worlds[at[n]].db; row.event.iid < |db.invocations| && db.invocations[row.event.iid].egress == e
    ensures e in EgressIn(r.states[n].delivered)
  {
    RunStands(t, r, at, n);
  }

  lemma TaughtByRow(db: Db, rows: seq<EventRow>, delivered: seq<Keyed>, e: EgressKey) returns (i: nat)
    requires AllStand(db, rows, delivered) && e in EgressIn(delivered)
    ensures i < |rows| && (exists k :: k in delivered && k.id == rows[i].id) && rows[i].event.NewIngestInvocation?
    ensures rows[i].event.iid < |db.invocations| && db.invocations[rows[i].event.iid].egress == e
  {
    var y :| 0 <= y < |delivered| && delivered[y].event.NewRngRecord? && delivered[y].event.egress == e;
    assert delivered[y] in delivered;
    i :| 0 <= i < |rows| && StandsFor(db, rows[i], delivered[y]);
  }

  /** An announcement that came ahead of the cursor has taught the egress key after the next poll. */
  lemma AheadIsLearned(t: Trace, r: ReaderRun, at: seq<nat>, m: nat, x: nat, e: EgressKey)
    requires IsRun(t) && ReadsEvents(t, r, at) && x < m < |r.steps| && r.steps[m].Poll?
    requires Announces(t, r, at, x, e) && AheadOfCursor(r, x)
    ensures e in EgressIn(r.states[m + 1].delivered)
  {
    AheadIsDelivered(r, x, m);
    SameEgress(t, at[x + 1], at[m + 1], r.steps[x].row.event.iid);
    DeliveryTeaches(t, r, at, m + 1, r.steps[x].row, e);
  }

  lemma AheadIsDelivered(r: ReaderRun, x: nat, m: nat)
    requires IsReaderRun(r) && x < m < |r.steps| && r.steps[x].Append? && r.steps[m].Poll? && AheadOfCursor(r, x)
    ensures DistinctIds(r.states[m + 1].rows) && r.steps[x].row in r.states[m + 1].rows
    ensures exists k :: k in r.states[m + 1].delivered && k.id == r.steps[x].row.id
  {
    DeliveredIffAheadOfCursor(r, x, m);
    StaysInTable(r, x, m + 1);
    NeverTwiceAndInOrder(r, m + 1);
  }

  lemma {:induction false} StaysInTable(r: ReaderRun, x: nat, n: nat)
    requires IsReaderRun(r) && x < n < |r.states| && r.steps[x].Append?
    ensures r.steps[x].row in r.states[n].rows
    decreases n
  {
    assert Moves(r.states[n - 1], r.steps[n - 1], r.states[n]);
    if x < n - 1 {
      StaysInTable(r, x, n - 1);
    }
  }

  /** Whatever is learned was announced ahead of the cursor. */
  lemma LearnedWasAhead(t: Trace, r: ReaderRun, at: seq<nat>, m: nat, e: EgressKey) returns (x: nat)
    requires IsRun(t) && ReadsEvents(t, r, at) && m < |r.steps| && r.steps[m].Poll?
    requires e in EgressIn(r.states[m + 1].delivered)
    ensures x < m && Announces(t, r, at, x, e) && AheadOfCursor(r, x)
  {
    var s, db := r.states[m + 1], t.worlds[at[m + 1]].db;
    RunStands(t, r, at, m + 1);
    var i := TaughtByRow(db, s.rows, s.delivered, e);
    x := RowOrigin(r, m + 1, i);
    AnnouncedExists(t, r, at, x);
    SameEgress(t, at[x + 1], at[m + 1], s.rows[i].event.iid);
    DeliveredIffAheadOfCursor(r, x, m);
  }

  /** An announcement is visible only with its invocation. */
  lemma AnnouncedExists(t: Trace, r: ReaderRun, at: seq<nat>, x: nat)
    requires IsRun(t) && ReadsEvents(t, r, at) && x < |r.steps|
    requires r.steps[x].Append? && r.steps[x].row.event.NewIngestInvocation?
    ensures r.steps[x].row.event.iid < |t.worlds[at[x + 1]].db.invocations|
  {
    var s, s' := r.states[x], r.states[x + 1];
    assert Moves(s, r.steps[x], s');
    RunEventsOk(t, at[x + 1]);
    assert ShowsTable(t.worlds[at[x + 1]].db, s'.rows) && s'.rows[|s.rows|] == r.steps[x].row;
  }

  /** The client knows an egress key after a poll if and only if one of its announcements so far came with an
      id beyond the cursor. */
  lemma LearnedIffAhead(t: Trace, r: ReaderRun, at: seq<nat>, m: nat, e: EgressKey)
    requires IsRun(t) && ReadsEvents(t, r, at) && m < |r.steps| && r.steps[m].Poll?
    ensures e in EgressIn(r.states[m + 1].delivered) <==>
            exists x :: 0 <= x < m && Announces(t, r, at, x, e) && AheadOfCursor(r, x)
  {
    if e in EgressIn(r.states[m + 1].delivered) {
      var x := LearnedWasAhead(t, r, at, m, e);
    }
    if exists x :: 0 <= x < m && Announces(t, r, at, x, e) && AheadOfCursor(r, x) {
      var x :| 0 <= x < m && Announces(t, r, at, x, e) && AheadOfCursor(r, x);
      AheadIsLearned(t, r, at, m, x, e);
    }
  }
}
