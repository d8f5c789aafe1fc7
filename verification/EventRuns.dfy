/**
 * A reader that polls the event table again and again while events are appended to it. What it gets
 * is exactly what it should get if ids become visible in increasing order; otherwise an event is lost
 * to the reader exactly when its id is already behind the cursor as it becomes visible.
 */
module EventRuns {
  import opened Coverage
  import opened RecoveryTables
  import opened EventPaging

  datatype Reader = Reader(rows: seq<EventRow>, cursor: int, delivered: seq<Keyed>)

  /** Rows are appended in commit order; a poll sees some state of the other tables. */
  datatype ReaderStep = Append(row: EventRow) | Poll(db: Db, page: seq<Keyed>)

  ghost predicate Renders(db: Db, rows: seq<EventRow>) {
    forall i :: 0 <= i < |rows| ==> !Violates(db, rows[i].event)
  }

  ghost predicate Moves(r: Reader, step: ReaderStep, r': Reader) {
    match step
    case Append(row) =>
      0 < row.id <= MAX_ID && (forall i :: 0 <= i < |r.rows| ==> r.rows[i].id != row.id)
        && r' == r.(rows := r.rows + [row])
    case Poll(db, page) =>
      && Renders(db, r.rows) && IsPage(db, r.rows, r.cursor, page)
      && r' == r.(cursor := CursorAfter(r.cursor, page), delivered := r.delivered + page)
  }

  datatype ReaderRun = ReaderRun(states: seq<Reader>, steps: seq<ReaderStep>)

  /** Ids start from 1, so a first cursor of 0 asks for everything. */
  ghost predicate IsReaderRun(t: ReaderRun) {
    && |t.states| == |t.steps| + 1
    && t.states[0] == Reader([], 0, [])
    && forall n :: 0 <= n < |t.steps| ==> Moves(t.states[n], t.steps[n], t.states[n + 1])
  }

  ghost predicate Delivered(r: Reader, id: int) {
    exists k :: k in r.delivered && k.id == id
  }

  /** Delivered events stand in id order without repeats, at or behind the cursor, and are in the table. */
  ghost predicate ReaderInv(r: Reader) {
    && DistinctIds(r.rows)
    && Ascending(r.delivered)
    && (forall k :: k in r.delivered ==> 0 < k.id <= r.cursor && exists i :: 0 <= i < |r.rows| && r.rows[i].id == k.id)
    && (r.cursor == 0 || Delivered(r, r.cursor))
  }

  lemma PollKeepsInv(r: Reader, db: Db, page: seq<Keyed>, r': Reader)
    requires ReaderInv(r) && Moves(r, Poll(db, page), r')
    ensures ReaderInv(r') && r.cursor <= r'.cursor
  {
    forall k | k in page
      ensures r.cursor < k.id <= r'.cursor && exists i :: 0 <= i < |r.rows| && r.rows[i].id == k.id
    {
    }
    if page == [] {
      assert r'.delivered == r.delivered;
    } else {
      var last := page[|page| - 1];
      assert last in page && last in r'.delivered && last.id == r'.cursor;
    }
  }

  /** A poll delivers every row ahead of the cursor and no other. */
  lemma PollDelivers(r: Reader, db: Db, page: seq<Keyed>, r': Reader, id: int)
    requires ReaderInv(r) && Moves(r, Poll(db, page), r')
    ensures Delivered(r, id) ==> Delivered(r', id)
    ensures id <= r.cursor && Delivered(r', id) ==> Delivered(r, id)
    ensures id > r.cursor && (exists i :: 0 <= i < |r.rows| && r.rows[i].id == id) ==> Delivered(r', id)
  {
    if Delivered(r, id) {
      var k :| k in r.delivered && k.id == id;
      assert k in r'.delivered;
    }
    if id <= r.cursor && Delivered(r', id) {
      var k :| k in r'.delivered && k.id == id;
    }
    if id > r.cursor && exists i :: 0 <= i < |r.rows| && r.rows[i].id == id {
      var i :| 0 <= i < |r.rows| && r.rows[i].id == id;
      var k := Keyed(id, Render(db, r.rows[i].event).value);
      RenderTells(db, r.rows[i].event, k.event);
      assert Shows(db, r.rows, r.cursor, k);
      assert k in r'.delivered;
    }
  }

  lemma AppendKeepsInv(r: Reader, row: EventRow, r': Reader)
    requires ReaderInv(r) && Moves(r, Append(row), r')
    ensures ReaderInv(r') && r.cursor == r'.cursor && r'.delivered == r.delivered && !Delivered(r', row.id)
  {
    forall k | k in r.delivered
      ensures exists i :: 0 <= i < |r'.rows| && r'.rows[i].id == k.id
    {
      var i :| 0 <= i < |r.rows| && r.rows[i].id == k.id;
      assert r'.rows[i].id == k.id;
    }
  }

  /** Whatever is appended and in whatever order, events arrive in id order, none twice. */
  lemma {:induction false} NeverTwiceAndInOrder(t: ReaderRun, n: nat)
    requires IsReaderRun(t) && n < |t.states|
    ensures ReaderInv(t.states[n])
  {
    if n > 0 {
      NeverTwiceAndInOrder(t, n - 1);
      match t.steps[n - 1]
      case Append(row) => AppendKeepsInv(t.states[n - 1], row, t.states[n]);
      case Poll(db, page) => PollKeepsInv(t.states[n - 1], db, page, t.states[n]);
    }
  }

  lemma {:induction false} CursorNeverMovesBack(t: ReaderRun, m: nat, n: nat)
    requires IsReaderRun(t) && m <= n < |t.states|
    ensures t.states[m].cursor <= t.states[n].cursor
    ensures t.states[m].delivered <= t.states[n].delivered
    decreases n
  {
    if m < n {
      CursorNeverMovesBack(t, m, n - 1);
      NeverTwiceAndInOrder(t, n - 1);
      match t.steps[n - 1]
      case Append(_) =>
      case Poll(db, page) => PollKeepsInv(t.states[n - 1], db, page, t.states[n]);
    }
  }

  /** Between its append at step a and state n: a row ahead of the cursor stays ahead or is delivered,
      a row behind it is never delivered. */
  lemma {:induction false} FateOfRow(t: ReaderRun, a: nat, n: nat)
    requires IsReaderRun(t) && a < n < |t.states| && t.steps[a].Append?
    ensures var id := t.steps[a].row.id;
            && (exists i :: 0 <= i < |t.states[n].rows| && t.states[n].rows[i].id == id)
            && (id > t.states[a].cursor ==> Delivered(t.states[n], id) || id > t.states[n].cursor)
            && (id <= t.states[a].cursor ==> !Delivered(t.states[n], id) && id <= t.states[n].cursor)
    decreases n
  {
    var id := t.steps[a].row.id;
    var r, r' := t.states[n - 1], t.states[n];
    NeverTwiceAndInOrder(t, n - 1);
    if a == n - 1 {
      AppendKeepsInv(r, t.steps[a].row, r');
      assert r'.rows[|r.rows|].id == id;
    } else {
      FateOfRow(t, a, n - 1);
      var i :| 0 <= i < |r.rows| && r.rows[i].id == id;
      assert r'.rows[i].id == id;
      match t.steps[n - 1]
      case Append(row) => AppendKeepsInv(r, row, r');
      case Poll(db, page) =>
        PollKeepsInv(r, db, page, r');
        PollDelivers(r, db, page, r', id);
    }
  }

  /** An event is delivered by the next poll, and then exactly once, if and only if its id was beyond
      the reader's cursor when it became visible. */
  lemma DeliveredIffAheadOfCursor(t: ReaderRun, a: nat, m: nat)
    requires IsReaderRun(t) && a < m < |t.steps| && t.steps[a].Append? && t.steps[m].Poll?
    ensures Delivered(t.states[m + 1], t.steps[a].row.id) <==> t.steps[a].row.id > t.states[a].cursor
  {
    FateOfRow(t, a, m);
    FateOfRow(t, a, m + 1);
    NeverTwiceAndInOrder(t, m);
    PollDelivers(t.states[m], t.steps[m].db, t.steps[m].page, t.states[m + 1], t.steps[a].row.id);
  }

  /** Ids become visible in increasing order. */
  ghost predicate InIdOrder(t: ReaderRun)
    requires IsReaderRun(t)
  {
    forall n :: 0 <= n < |t.steps| && t.steps[n].Append? ==>
      forall i :: 0 <= i < |t.states[n].rows| ==> t.states[n].rows[i].id < t.steps[n].row.id
  }

  /** Then a poll leaves nothing undelivered. */
  lemma InOrderNothingIsMissed(t: ReaderRun, a: nat, m: nat)
    requires IsReaderRun(t) && InIdOrder(t)
    requires a < m < |t.steps| && t.steps[a].Append? && t.steps[m].Poll?
    ensures Delivered(t.states[m + 1], t.steps[a].row.id)
  {
    NeverTwiceAndInOrder(t, a);
    var r := t.states[a];
    assert Moves(r, t.steps[a], t.states[a + 1]);
    if r.cursor != 0 {
      var k :| k in r.delivered && k.id == r.cursor;
      var i :| 0 <= i < |r.rows| && r.rows[i].id == k.id;
      assert r.rows[i].id < t.steps[a].row.id;
    }
    DeliveredIffAheadOfCursor(t, a, m);
  }

  /** Out of order something can be: the transaction that drew id 1 commits after a reader has already
      been given event 2, and no later poll ever returns event 1. */
  lemma LateCommitIsMissed(db: Db, range: BlockRange, range': BlockRange)
    returns (t: ReaderRun)
    ensures IsReaderRun(t) && |t.states| == 5
    ensures t.steps[2] == Append(EventRow(1, MissingBlocks(range))) && t.steps[3].Poll?
    ensures !Delivered(t.states[4], 1) && Delivered(t.states[4], 2)
  {
    var one, two := EventRow(1, MissingBlocks(range)), EventRow(2, MissingBlocks(range'));
    var page := [Keyed(2, MissedBlocks(range'))];
    var s1 := Reader([two], 0, []);
    var s2 := Reader([two], 2, page);
    var s3 := Reader([two, one], 2, page);
    var none: seq<Keyed> := [];
    t := ReaderRun([Reader([], 0, []), s1, s2, s3, s3], [Append(two), Poll(db, page), Append(one), Poll(db, none)]);
    assert s1.rows[0].id > 0;
    forall k
      ensures k in page <==> Shows(db, s1.rows, 0, k)
    {
    }
    assert IsPage(db, s1.rows, 0, page);
    forall k
      ensures !Shows(db, s3.rows, 2, k)
    {
    }
    assert IsPage(db, s3.rows, 2, none);
    assert s3.delivered + none == s3.delivered;
    assert s1.delivered + page == page;
    assert page[0] in page;
  }
}
