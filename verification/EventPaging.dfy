/**
 * Paging through the user-event table (fog/sql_recovery_db/src/lib.rs:553-709): a client hands in the
 * largest event id it has seen and gets every event with a larger one, in id order, with the new
 * largest id.
 *
 * Ids come from a sequence, so they are distinct, but transactions may commit in another order than
 * the one in which they drew their ids.
 */
module EventPaging {
  import opened Prelude
  import opened Coverage
  import opened RecoveryTables

  const MAX_ID: int := 0x7fff_ffff_ffff_ffff

  datatype EventRow = EventRow(id: int, event: UserEvent)

  /** An event as the client sees it, with what the query joins to it. */
  datatype FogUserEvent =
    | NewRngRecord(iid: InvocationId, egress: EgressKey, startBlock: nat)
    | Decommissioned(iid: InvocationId, lastIngestedBlock: nat)
    | MissedBlocks(range: BlockRange)

  datatype Keyed = Keyed(id: int, event: FogUserEvent)
  datatype SchemaViolation = SchemaViolation(id: int)

  /** COALESCE gives 0 for no block. */
  function Render(db: Db, event: UserEvent): Option<FogUserEvent> {
    match event
    case NewIngestInvocation(iid) =>
      if iid < |db.invocations| then Some(NewRngRecord(iid, db.invocations[iid].egress, db.invocations[iid].startBlock))
      else None
    case DecommissionIngestInvocation(iid) =>
      var last := LastIngested(db.blocks, iid);
      Some(Decommissioned(iid, if last.Some? then last.value else 0))
    case MissingBlocks(range) => Some(MissedBlocks(range))
  }

  /** The last block stored under an invocation id, or 0 if there is none. */
  ghost predicate IsLastBlock(blocks: seq<BlockRow>, iid: InvocationId, block: nat) {
    && (forall r :: 0 <= r < |blocks| && blocks[r].iid == iid ==> blocks[r].block <= block)
    && if forall r :: 0 <= r < |blocks| ==> blocks[r].iid != iid then block == 0
       else exists r :: 0 <= r < |blocks| && blocks[r].iid == iid && blocks[r].block == block
  }

  /** What a client is told about an event: of a new invocation its row, of a decommissioned one the last block it
      provided, of missed blocks their range. */
  ghost predicate Tells(db: Db, event: UserEvent, shown: FogUserEvent) {
    match event
    case NewIngestInvocation(iid) =>
      && iid < |db.invocations| && shown.NewRngRecord? && shown.iid == iid
      && shown.egress == db.invocations[iid].egress && shown.startBlock == db.invocations[iid].startBlock
    case DecommissionIngestInvocation(iid) =>
      shown.Decommissioned? && shown.iid == iid && IsLastBlock(db.blocks, iid, shown.lastIngestedBlock)
    case MissingBlocks(range) =>
      shown.MissedBlocks? && shown.range.startBlock == range.startBlock && shown.range.endBlock == range.endBlock
  }

  lemma {:induction false} LastIngestedMeans(blocks: seq<BlockRow>, iid: InvocationId)
    ensures var last := LastIngested(blocks, iid); IsLastBlock(blocks, iid, if last.Some? then last.value else 0)
    ensures LastIngested(blocks, iid).None? <==> forall r :: 0 <= r < |blocks| ==> blocks[r].iid != iid
  {
    if |blocks| > 0 {
      var front, row := blocks[..|blocks| - 1], blocks[|blocks| - 1];
      LastIngestedMeans(front, iid);
      if LastIngested(front, iid).Some? {
        var r :| 0 <= r < |front| && front[r].iid == iid && front[r].block == LastIngested(front, iid).value;
        assert blocks[r] == front[r];
      }
      if row.iid == iid {
        assert blocks[|blocks| - 1].block == row.block;
      }
    }
  }

  lemma OneLastBlock(blocks: seq<BlockRow>, iid: InvocationId, a: nat, b: nat)
    requires IsLastBlock(blocks, iid, a) && IsLastBlock(blocks, iid, b)
    ensures a == b
  {
  }

  /** An event is shown as exactly what the client is to be told. */
  lemma RenderTells(db: Db, event: UserEvent, shown: FogUserEvent)
    ensures Render(db, event) == Some(shown) <==> Tells(db, event, shown)
  {
    if event.DecommissionIngestInvocation? {
      LastIngestedMeans(db.blocks, event.iid);
      if Tells(db, event, shown) {
        var last := LastIngested(db.blocks, event.iid);
        OneLastBlock(db.blocks, event.iid, shown.lastIngestedBlock, if last.Some? then last.value else 0);
      }
    }
  }

  /** A rng record without its invocation row violates the schema. */
  predicate Violates(db: Db, event: UserEvent) {
    event.NewIngestInvocation? && event.iid >= |db.invocations|
  }

  ghost predicate DistinctIds(rows: seq<EventRow>) {
    forall i, j :: 0 <= i < j < |rows| ==> rows[i].id != rows[j].id
  }

  predicate Ascending(page: seq<Keyed>) {
    forall i, j :: 0 <= i < j < |page| ==> page[i].id < page[j].id
  }

  /** One of `rows`, with an id beyond `start`, is shown as k. */
  ghost predicate Shows(db: Db, rows: seq<EventRow>, start: int, k: Keyed) {
    exists i :: 0 <= i < |rows| && rows[i].id > start && rows[i].id == k.id
      && Tells(db, rows[i].event, k.event)
  }

  /** The page holds exactly the events with ids beyond `start`, each once, in id order. */
  ghost predicate IsPage(db: Db, rows: seq<EventRow>, start: int, page: seq<Keyed>) {
    Ascending(page) && forall k :: k in page <==> Shows(db, rows, start, k)
  }

  /** The egress keys of the rng records in a page. */
  function EgressIn(page: seq<Keyed>): set<EgressKey> {
    set i | 0 <= i < |page| && page[i].event.NewRngRecord? :: page[i].event.egress
  }

  function CursorAfter(start: int, page: seq<Keyed>): int {
    if page == [] then start else page[|page| - 1].id
  }

  /** One step of the sort: the events so far are sorted and e's id is new. */
  function Insert(page: seq<Keyed>, e: Keyed): (r: seq<Keyed>)
    requires Ascending(page) && forall k :: k in page ==> k.id != e.id
    ensures Ascending(r) && forall k :: k in r <==> k in page || k == e
  {
    if page == [] then [e]
    else
      var last := page[|page| - 1];
      if last.id < e.id then page + [e]
      else
        var front := Insert(page[..|page| - 1], e);
        assert page == page[..|page| - 1] + [last];
        assert forall k :: k in front ==> k.id < last.id;
        front + [last]
  }

  function Sort(events: seq<Keyed>): (r: seq<Keyed>)
    requires forall i, j :: 0 <= i < j < |events| ==> events[i].id != events[j].id
    ensures Ascending(r) && forall k :: k in r <==> k in events
  {
    if events == [] then []
    else
      assert events == events[..|events| - 1] + [events[|events| - 1]];
      Insert(Sort(events[..|events| - 1]), events[|events| - 1])
  }

  /** A request from the largest possible id is answered without asking the database. */
  method SearchUserEvents(db: Db, rows: seq<EventRow>, start: int)
    returns (r: Result<(seq<FogUserEvent>, int), SchemaViolation>, ghost page: seq<Keyed>)
    requires DistinctIds(rows)
    requires forall i :: 0 <= i < |rows| ==> rows[i].id <= MAX_ID
    ensures r.Err? <==> exists i :: 0 <= i < |rows| && rows[i].id > start && Violates(db, rows[i].event)
    ensures r.Err? ==> exists i :: 0 <= i < |rows| && rows[i].id == r.error.id && Violates(db, rows[i].event)
    ensures r.Ok? ==> IsPage(db, rows, start, page)
    ensures r.Ok? ==> |r.value.0| == |page| && forall i :: 0 <= i < |page| ==> r.value.0[i] == page[i].event
    ensures r.Ok? ==> r.value.1 == CursorAfter(start, page)
  {
    page := [];
    if start == MAX_ID {
      return Ok(([], MAX_ID)), [];
    }
    var events: seq<Keyed>, maxId := [], start;
    for n := 0 to |rows|
      invariant forall i :: 0 <= i < n && rows[i].id > start ==> !Violates(db, rows[i].event)
      invariant Collected(db, rows, start, n, events, maxId)
    {
      CollectOne(db, rows, start, n, events, maxId);
      if rows[n].id > start {
        maxId := Max(maxId, rows[n].id);
        var shown := Render(db, rows[n].event);
        if shown.None? {
          return Err(SchemaViolation(rows[n].id)), [];
        }
        events := events + [Keyed(rows[n].id, shown.value)];
      }
    }
    assert rows[..|rows|] == rows;
    var sorted := Sort(events);
    page := sorted;
    r := Ok((seq(|sorted|, i requires 0 <= i < |sorted| => sorted[i].event), maxId));
  }

  /** The first n rows have been gone through: the events beyond `start` are collected, and maxId is the
      largest id among them. */
  ghost predicate Collected(db: Db, rows: seq<EventRow>, start: int, n: nat, events: seq<Keyed>, maxId: int)
    requires n <= |rows|
  {
    && (forall k :: k in events <==> Shows(db, rows[..n], start, k))
    && (forall i, j :: 0 <= i < j < |events| ==> events[i].id != events[j].id)
    && start <= maxId && (maxId == start || exists k :: k in events && k.id == maxId)
    && (forall k :: k in events ==> start < k.id <= maxId)
  }

  lemma CollectOne(db: Db, rows: seq<EventRow>, start: int, n: nat, events: seq<Keyed>, maxId: int)
    requires DistinctIds(rows) && n < |rows| && Collected(db, rows, start, n, events, maxId)
    ensures rows[n].id <= start ==> Collected(db, rows, start, n + 1, events, maxId)
    ensures rows[n].id > start && Render(db, rows[n].event).Some? ==>
              Collected(db, rows, start, n + 1, events + [Keyed(rows[n].id, Render(db, rows[n].event).value)],
                        Max(maxId, rows[n].id))
  {
    if rows[n].id > start && Render(db, rows[n].event).Some? {
      var e := Keyed(rows[n].id, Render(db, rows[n].event).value);
      assert (events + [e])[|events|] == e;
      forall shown
        ensures Tells(db, rows[n].event, shown) <==> shown == e.event
      {
        RenderTells(db, rows[n].event, shown);
      }
      forall i | 0 <= i < |events|
        ensures events[i].id != e.id
      {
        assert events[i] in events;
      }
      if maxId > rows[n].id {
        var k :| k in events && k.id == maxId;
        assert k in events + [e];
      }
    }
  }
}
