/**
 * A user who polls again and again (fog/view/protocol/src/polling.rs). Every request of every poll may be
 * answered by another view server behind a load balancer, and any may fail; rngs, findings, cursor and block
 * count are carried over from poll to poll.
 */
module UserRuns {
  import opened Prelude
  import opened FogView
  import opened RecoveryTables
  import opened IngestEnclave
  import opened IngestProtocol
  import opened RngStreams
  import opened SqlRecoveryDb
  import opened TxOutLookup
  import opened EventPaging
  import opened EventRuns
  import opened RngDelivery
  import opened ClientPolling
  import opened EndToEnd

  /** A poll with the requests behind it: the first one brought `page`, the others searched. */
  datatype UserPoll = UserPoll(
    first: Option<Request>, page: seq<Keyed>, searches: seq<Option<Request>>, poll: PollRecord)

  datatype UserRun = UserRun(users: seq<User>, polls: seq<UserPoll>)

  ghost predicate AllSound(t: Trace, n: nat, requests: seq<Option<Request>>)
    requires IsRun(t) && AllAnswered(t, n, requests)
  {
    forall i :: 0 <= i < |requests| && requests[i].Some? ==> Sound(t, n, requests[i].value)
  }

  /** The poll takes the user from u to u'; the view servers it met have sound counts. */
  ghost predicate PollHappens(t: Trace, n: nat, final: Store, view: ViewKey, u: User, x: UserPoll, u': User)
    requires IsRun(t)
  {
    && AllAnswered(t, n, [x.first]) && AllSound(t, n, [x.first])
    && AllAnswered(t, n, x.searches) && AllSound(t, n, x.searches)
    && x.poll.first == (if x.first.Some? then Some(First(x.page, x.first.value.answer.count)) else None)
    && x.poll.answers == AnswersOf(x.searches)
    && Polls(final, view, HeldBy(t, n, x.searches, view, u'.egress), u, x.poll, u')
  }

  ghost predicate IsUserRun(t: Trace, n: nat, final: Store, view: ViewKey, h: UserRun)
    requires IsRun(t)
  {
    && |h.users| == |h.polls| + 1 && h.users[0] == NEW_USER
    && forall x :: 0 <= x < |h.polls| ==> PollHappens(t, n, final, view, h.users[x], h.polls[x], h.users[x + 1])
  }

  /** The database of world n, in which nothing that was asked for is missing. */
  ghost predicate Settled(t: Trace, n: nat, final: Store) {
    && n < |t.worlds| && GapFree(t.worlds[n].db) && ShortStreams(t.worlds[n].db.blocks)
    && PayloadsOf(final, t.worlds[n].db.blocks, 0)
  }

  // ---- one poll ---------------------------------------------------------------------------------------------------

  /** The polling loop can be called at any point of such a run. */
  lemma PollIsCallable(t: Trace, n: nat, final: Store, view: ViewKey, u: User, page: seq<Keyed>,
                       searches: seq<Option<Request>>)
    requires IsRun(t) && Settled(t, n, final) && UserOk(final, view, u) && AllAnswered(t, n, searches)
    ensures var egress := Learned(u, page).egress;
            Consistent(AnswersOf(searches), view, egress, HeldBy(t, n, searches, view, egress), final)
  {
    ServersArePollable(t, n, searches, view, Learned(u, page).egress, final);
  }

  /** All requests that were answered in a poll with a first answer. */
  function AskedIn(x: UserPoll): (asked: seq<Request>)
    requires x.first.Some? && x.poll.rounds <= |x.searches|
    requires forall i :: 0 <= i < x.poll.rounds ==> x.searches[i].Some?
    ensures |asked| == x.poll.rounds + 1 && asked[0] == x.first.value
    ensures forall i :: 0 <= i < x.poll.rounds ==> asked[i + 1] == x.searches[i].value
  {
    [x.first.value] + seq(x.poll.rounds, i requires 0 <= i < x.poll.rounds => x.searches[i].value)
  }

  lemma AskedWereAnswered(t: Trace, n: nat, final: Store, view: ViewKey, u: User, x: UserPoll, u': User)
    requires IsRun(t) && PollHappens(t, n, final, view, u, x, u') && x.first.Some?
    ensures x.poll.rounds <= |x.searches| && forall i :: 0 <= i < x.poll.rounds ==> x.searches[i].Some?
    ensures forall i :: 0 <= i < |AskedIn(x)| ==> Answered(t, n, AskedIn(x)[i]) && Sound(t, n, AskedIn(x)[i])
  {
    assert [x.first][0] == x.first;
    forall i | 0 <= i < x.poll.rounds
      ensures x.searches[i].Some?
    {
      assert x.poll.answers[i].Some?;
    }
    forall i | 0 <= i < |AskedIn(x)|
      ensures Answered(t, n, AskedIn(x)[i]) && Sound(t, n, AskedIn(x)[i])
    {
      if i > 0 {
        assert AskedIn(x)[i] == x.searches[i - 1].value;
      }
    }
  }

  lemma PollKeepsUser(t: Trace, n: nat, final: Store, view: ViewKey, u: User, x: UserPoll, u': User)
    requires IsRun(t) && UserOk(final, view, u) && PollHappens(t, n, final, view, u, x, u')
    ensures UserOk(final, view, u') && Keeps(u, u') && u.count <= u'.count
  {
    PollKeeps(final, view, HeldBy(t, n, x.searches, view, u'.egress), u, x.poll, u');
  }

  /** A search that came to its end has, of every rng, all that one of the servers asked held. */
  lemma DoneIsSearched(t: Trace, n: nat, final: Store, view: ViewKey, u: User, x: UserPoll, u': User)
    requires IsRun(t) && UserOk(final, view, u) && PollHappens(t, n, final, view, u, x, u') && x.poll.done
    requires x.first.Some? && x.poll.rounds <= |x.searches|
    requires forall i :: 0 <= i < x.poll.rounds ==> x.searches[i].Some?
    ensures Searched(t, n, AskedIn(x), final, view, u'.egress, u'.found)
  {
    PollKeepsUser(t, n, final, view, u, x, u');
    forall k | 0 <= k < |u'.egress|
      ensures Emptied(t, n, AskedIn(x), SharedSecret(u'.egress[k], view), |u'.found[k]|)
    {
      DoneEmptied(t, n, final, view, u, x, u', k);
    }
  }

  lemma DoneEmptied(t: Trace, n: nat, final: Store, view: ViewKey, u: User, x: UserPoll, u': User, k: nat)
    requires IsRun(t) && PollHappens(t, n, final, view, u, x, u') && x.poll.done
    requires x.first.Some? && x.poll.rounds <= |x.searches| && k < |u'.egress| == |u'.at|
    requires forall i :: 0 <= i < x.poll.rounds ==> x.searches[i].Some?
    ensures Emptied(t, n, AskedIn(x), SharedSecret(u'.egress[k], view), u'.at[k])
  {
    var totals := HeldBy(t, n, x.searches, view, u'.egress);
    assert Exhausted(x.poll.answers, totals, x.poll.rounds, u'.at, k);
    var i :| 0 <= i < x.poll.rounds && i < |totals| && k < |totals[i]| && x.poll.answers[i].Some?
             && totals[i][k] <= u'.at[k];
    EmptiedAt(t, n, x.searches, AskedIn(x), view, u'.egress, i, k, u'.at[k]);
  }

  lemma EmptiedAt(t: Trace, n: nat, searches: seq<Option<Request>>, asked: seq<Request>, view: ViewKey,
                  egress: seq<EgressKey>, i: nat, k: nat, m: nat)
    requires AllAnswered(t, n, searches) && i < |searches| && searches[i].Some? && k < |egress|
    requires i + 1 < |asked| && asked[i + 1] == searches[i].value && HeldBy(t, n, searches, view, egress)[i][k] <= m
    ensures Emptied(t, n, asked, SharedSecret(egress[k], view), m)
  {
    assert Answered(t, n, asked[i + 1]);
  }

  /** After a search that came to its end and in which every count told was above a block that is owed, the
      output is found if and only if its rng is known. */
  lemma DonePollFindsIff(t: Trace, n: nat, final: Store, view: ViewKey, u: User, x: UserPoll, u': User, a: nat,
                         key: IngressKey, p: nat, crypto: Crypto)
    returns (r: nat, j: nat, e: EgressKey)
    requires IsRun(t) && Settled(t, n, final) && Owed(t, n, a, key, p, view)
    requires UserOk(final, view, u) && PollHappens(t, n, final, view, u, x, u') && x.poll.done && x.first.Some?
    requires |t.worlds[a].ledger| < x.first.value.answer.count
    requires forall i :: 0 <= i < x.poll.rounds && i < |x.searches| && x.searches[i].Some? ==>
               |t.worlds[a].ledger| < x.searches[i].value.answer.count
    ensures UserOk(final, view, u') && At(t.worlds[n].db.blocks, r, j)
    ensures t.worlds[n].db.blocks[r].key == key && t.worlds[n].db.blocks[r].block == |t.worlds[a].ledger|
    ensures RecordOfOutput(t, n, |t.worlds[a].ledger|, p, view, crypto, t.worlds[n].db.blocks[r].records[j], e)
    ensures FoundAt(view, u'.egress, u'.found, t.worlds[n].db.blocks[r].records[j]) <==> e in u'.egress
  {
    PollKeepsUser(t, n, final, view, u, x, u');
    AskedWereAnswered(t, n, final, view, u, x, u');
    DoneIsSearched(t, n, final, view, u, x, u');
    var asked := AskedIn(x);
    forall i | 0 <= i < |asked|
      ensures CountsBlock(t, n, asked[i], |t.worlds[a].ledger|)
    {
      if i > 0 {
        assert asked[i] == x.searches[i - 1].value;
      }
    }
    r, j, e := UserRecoversBelowCount(t, n, asked, a, key, p, view, final, u'.egress, u'.found, crypto);
  }

  // ---- over all polls -----------------------------------------------------------------------------------------------

  lemma {:induction false} UserRunOk(t: Trace, n: nat, final: Store, view: ViewKey, h: UserRun, y: nat)
    requires IsRun(t) && IsUserRun(t, n, final, view, h) && y < |h.users|
    ensures UserOk(final, view, h.users[y])
  {
    if y > 0 {
      UserRunOk(t, n, final, view, h, y - 1);
      assert PollHappens(t, n, final, view, h.users[y - 1], h.polls[y - 1], h.users[y]);
      PollKeepsUser(t, n, final, view, h.users[y - 1], h.polls[y - 1], h.users[y]);
    }
  }

  /** What was found stays found, what was learned stays known, and the count never moves back. */
  lemma {:induction false} UserNeverForgets(t: Trace, n: nat, final: Store, view: ViewKey, h: UserRun, x: nat, y: nat)
    requires IsRun(t) && IsUserRun(t, n, final, view, h) && x <= y < |h.users|
    ensures Keeps(h.users[x], h.users[y]) && h.users[x].count <= h.users[y].count
    decreases y
  {
    UserRunOk(t, n, final, view, h, x);
    if x < y {
      UserNeverForgets(t, n, final, view, h, x, y - 1);
      UserRunOk(t, n, final, view, h, y - 1);
      assert PollHappens(t, n, final, view, h.users[y - 1], h.polls[y - 1], h.users[y]);
      PollKeepsUser(t, n, final, view, h.users[y - 1], h.polls[y - 1], h.users[y]);
      KeepsOn(h.users[x], h.users[y - 1], h.users[y]);
    }
  }

  lemma KeepsOn(u: User, v: User, w: User)
    requires Keeps(u, v) && Keeps(v, w)
    ensures Keeps(u, w)
  {
  }

  lemma FoundStays(view: ViewKey, u: User, v: User, record: ETxOutRecord)
    requires Keeps(u, v) && FoundAt(view, u.egress, u.found, record)
    ensures FoundAt(view, v.egress, v.found, record)
  {
    var k, i :| 0 <= k < |u.found| && 0 <= i < |u.found[k]| && u.found[k][i] == record.payload
                && record.searchKey == Output(SharedSecret(u.egress[k], view), i);
    assert v.found[k][i] == record.payload;
  }

  /** The poll that moved the count to where it is. */
  lemma {:induction false} CountMovedAt(users: seq<User>, y: nat) returns (x: nat)
    requires y < |users| && users[0].count == 0 && users[y].count > 0
    requires forall z :: 0 <= z < y ==> users[z].count <= users[z + 1].count
    ensures x < y && users[x].count < users[x + 1].count == users[y].count
  {
    if users[y - 1].count < users[y].count {
      x := y - 1;
    } else {
      x := CountMovedAt(users, y - 1);
    }
  }

  /** The promise of the block count, for a user who polls any number of times on any view servers with sound
      counts. An output owed in a block below the user's count has a record. Right after the poll that moved the
      count there, it is found if and only if the user was told about its rng by then; and it stays found. */
  lemma PolledUserRecovers(t: Trace, n: nat, final: Store, view: ViewKey, h: UserRun, y: nat, a: nat, key: IngressKey,
                           p: nat, crypto: Crypto)
    returns (x: nat, r: nat, j: nat, e: EgressKey)
    requires IsRun(t) && Settled(t, n, final) && IsUserRun(t, n, final, view, h) && y < |h.users|
    requires Owed(t, n, a, key, p, view) && |t.worlds[a].ledger| < h.users[y].count
    ensures x < y && h.users[x].count < h.users[x + 1].count == h.users[y].count
    ensures At(t.worlds[n].db.blocks, r, j)
    ensures RecordOfOutput(t, n, |t.worlds[a].ledger|, p, view, crypto, t.worlds[n].db.blocks[r].records[j], e)
    ensures var record, then_, now := t.worlds[n].db.blocks[r].records[j], h.users[x + 1], h.users[y];
            && |then_.found| == |then_.egress| && |now.found| == |now.egress|
            && (FoundAt(view, then_.egress, then_.found, record) <==> e in then_.egress)
            && (e in then_.egress ==> FoundAt(view, now.egress, now.found, record))
            && (FoundAt(view, now.egress, now.found, record) ==> e in now.egress)
  {
    forall z | 0 <= z < y
      ensures h.users[z].count <= h.users[z + 1].count
    {
      UserNeverForgets(t, n, final, view, h, z, z + 1);
    }
    x := CountMovedAt(h.users, y);
    var u, u', z := h.users[x], h.users[x + 1], h.polls[x];
    assert PollHappens(t, n, final, view, u, z, u');
    UserRunOk(t, n, final, view, h, x);
    MovedCountIsLeast(final, view, HeldBy(t, n, z.searches, view, u'.egress), u, z.poll, u');
    MovedCountsAreAbove(t, n, final, view, u, z, u');
    r, j, e := DonePollFindsIff(t, n, final, view, u, z, u', a, key, p, crypto);
    UserNeverForgets(t, n, final, view, h, x + 1, y);
    if e in u'.egress {
      FoundStays(view, u', h.users[y], t.worlds[n].db.blocks[r].records[j]);
    }
  }

  lemma MovedCountsAreAbove(t: Trace, n: nat, final: Store, view: ViewKey, u: User, x: UserPoll, u': User)
    requires IsRun(t) && PollHappens(t, n, final, view, u, x, u') && u.count < u'.count
    ensures x.first.Some? && u'.count <= x.first.value.answer.count
    ensures forall i :: 0 <= i < x.poll.rounds && i < |x.searches| && x.searches[i].Some? ==>
              u'.count <= x.searches[i].value.answer.count
  {
    MovedCountIsLeast(final, view, HeldBy(t, n, x.searches, view, u'.egress), u, x.poll, u');
    forall i | 0 <= i < x.poll.rounds && i < |x.searches| && x.searches[i].Some?
      ensures u'.count <= x.searches[i].value.answer.count
    {
      assert x.poll.answers[i] == Some(x.searches[i].value.answer);
    }
  }

  // ---- which rngs the user is told about --------------------------------------------------------------------------

  ghost predicate NoPolls(reader: ReaderRun, a: nat, b: nat)
    requires b <= |reader.steps|
  {
    forall z :: a <= z < b ==> reader.steps[z].Append?
  }

  /** The user is the reader of the event table: each poll with a first answer is one of its polls, and it makes
      no others. After x polls the user stands in state upto[x] of the reader. */
  ghost predicate ReadsAs(h: UserRun, reader: ReaderRun, upto: seq<nat>) {
    && IsReaderRun(reader) && |upto| == |h.users| == |h.polls| + 1 && upto[0] == 0
    && (forall x :: 0 <= x < |upto| ==> upto[x] < |reader.states|)
    && forall x :: 0 <= x < |h.polls| ==> LooksOnce(h.polls[x], reader, upto[x], upto[x + 1])
  }

  ghost predicate LooksOnce(x: UserPoll, reader: ReaderRun, a: nat, b: nat) {
    && a <= b <= |reader.steps|
    && if x.first.Some? then
         a < b && reader.steps[b - 1].Poll? && reader.steps[b - 1].page == x.page && NoPolls(reader, a, b - 1)
       else NoPolls(reader, a, b)
  }

  lemma {:induction false} NothingDelivered(reader: ReaderRun, a: nat, b: nat)
    requires IsReaderRun(reader) && a <= b <= |reader.steps| && NoPolls(reader, a, b)
    ensures reader.states[a].cursor == reader.states[b].cursor
            && reader.states[a].delivered == reader.states[b].delivered
    decreases b
  {
    if a < b {
      NothingDelivered(reader, a, b - 1);
      assert EventRuns.Moves(reader.states[b - 1], reader.steps[b - 1], reader.states[b]);
    }
  }

  lemma EgressInJoin(a: seq<Keyed>, b: seq<Keyed>)
    ensures EgressIn(a + b) == EgressIn(a) + EgressIn(b)
  {
    forall e | e in EgressIn(b)
      ensures e in EgressIn(a + b)
    {
      var i :| 0 <= i < |b| && b[i].event.NewRngRecord? && b[i].event.egress == e;
      assert (a + b)[|a| + i] == b[i];
    }
    forall e | e in EgressIn(a)
      ensures e in EgressIn(a + b)
    {
      var i :| 0 <= i < |a| && a[i].event.NewRngRecord? && a[i].event.egress == e;
      assert (a + b)[i] == a[i];
    }
  }

  /** One poll teaches the rngs of its page and moves the cursor past it. */
  lemma PollTeaches(t: Trace, n: nat, final: Store, view: ViewKey, u: User, x: UserPoll, u': User)
    requires IsRun(t) && UserOk(final, view, u) && PollHappens(t, n, final, view, u, x, u')
    ensures u'.cursor == if x.first.Some? then CursorAfter(u.cursor, x.page) else u.cursor
    ensures forall e :: e in u'.egress <==> e in u.egress || (x.first.Some? && e in EgressIn(x.page))
  {
    LearnedKeeps(final, view, u, x.page);
  }

  /** The user knows exactly the rngs of the events delivered so far. */
  lemma {:induction false} UserKnowsDelivered(t: Trace, n: nat, final: Store, view: ViewKey, h: UserRun,
                                              reader: ReaderRun, upto: seq<nat>, y: nat)
    requires IsRun(t) && IsUserRun(t, n, final, view, h) && ReadsAs(h, reader, upto) && y < |h.users|
    ensures h.users[y].cursor == reader.states[upto[y]].cursor
    ensures forall e :: e in h.users[y].egress <==> e in EgressIn(reader.states[upto[y]].delivered)
  {
    if y > 0 {
      var u, z, u', a, b := h.users[y - 1], h.polls[y - 1], h.users[y], upto[y - 1], upto[y];
      UserKnowsDelivered(t, n, final, view, h, reader, upto, y - 1);
      UserRunOk(t, n, final, view, h, y - 1);
      assert PollHappens(t, n, final, view, u, z, u') && LooksOnce(z, reader, a, b);
      PollTeaches(t, n, final, view, u, z, u');
      LookDelivers(z, reader, a, b);
    }
  }

  lemma LookDelivers(x: UserPoll, reader: ReaderRun, a: nat, b: nat)
    requires IsReaderRun(reader) && LooksOnce(x, reader, a, b)
    ensures reader.states[b].cursor == if x.first.Some? then CursorAfter(reader.states[a].cursor, x.page)
                                       else reader.states[a].cursor
    ensures EgressIn(reader.states[b].delivered)
            == EgressIn(reader.states[a].delivered) + if x.first.Some? then EgressIn(x.page) else {}
  {
    if x.first.Some? {
      NothingDelivered(reader, a, b - 1);
      assert EventRuns.Moves(reader.states[b - 1], reader.steps[b - 1], reader.states[b]);
      EgressInJoin(reader.states[a].delivered, x.page);
    } else {
      NothingDelivered(reader, a, b);
    }
  }

  /** Whatever the order of event ids, and whenever the events were read: right after the poll that moved the
      count above its block, an owed output is found if and only if an announcement of its egress key was visible
      at that poll's look at the events and came with an id beyond the cursor the user had when it became
      visible. */
  lemma FoundIffAnnouncedAhead(t: Trace, n: nat, final: Store, view: ViewKey, h: UserRun, y: nat, reader: ReaderRun,
                               at: seq<nat>, upto: seq<nat>, a: nat, key: IngressKey, p: nat, crypto: Crypto)
    returns (x: nat, r: nat, j: nat, e: EgressKey)
    requires IsRun(t) && Settled(t, n, final) && IsUserRun(t, n, final, view, h) && y < |h.users|
    requires Owed(t, n, a, key, p, view) && |t.worlds[a].ledger| < h.users[y].count
    requires ReadsEvents(t, reader, at) && ReadsAs(h, reader, upto)
    ensures x < y && h.users[x].count < h.users[x + 1].count == h.users[y].count && 0 < upto[x + 1]
    ensures At(t.worlds[n].db.blocks, r, j)
    ensures RecordOfOutput(t, n, |t.worlds[a].ledger|, p, view, crypto, t.worlds[n].db.blocks[r].records[j], e)
    ensures |h.users[x + 1].found| == |h.users[x + 1].egress|
    ensures FoundAt(view, h.users[x + 1].egress, h.users[x + 1].found, t.worlds[n].db.blocks[r].records[j]) <==>
            exists z :: 0 <= z < upto[x + 1] - 1 && Announces(t, reader, at, z, e) && AheadOfCursor(reader, z)
  {
    x, r, j, e := PolledUserRecovers(t, n, final, view, h, y, a, key, p, crypto);
    assert PollHappens(t, n, final, view, h.users[x], h.polls[x], h.users[x + 1]);
    MovedCountsAreAbove(t, n, final, view, h.users[x], h.polls[x], h.users[x + 1]);
    assert LooksOnce(h.polls[x], reader, upto[x], upto[x + 1]);
    UserKnowsDelivered(t, n, final, view, h, reader, upto, x + 1);
    LearnedIffAhead(t, reader, at, upto[x + 1] - 1, e);
  }
}
